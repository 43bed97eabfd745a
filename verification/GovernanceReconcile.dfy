/** The governance bootstrap: for the newest active deployment of every enabled agent it
    finds or creates a charter, a grant per required capability and a workload identity.
    The control plane is given by its own rules: one active charter per agent, unique
    charter versions and manifests, grants revoked with the charter they came from. */
module GovernanceReconcile {
  import opened Prelude
  import Versions

  datatype Agent = Agent(id: string, machine: string, enabled: bool, risk: int, capabilities: set<string>)

  datatype PackageManifest = PackageManifest(
    role: string, capabilities: seq<string>, taskTypes: seq<string>, repositories: seq<string>, risk: int)

  datatype Package = Package(id: string, manifest: PackageManifest)

  /** One row of the deployment listing, which is ordered by deployment time. */
  datatype Row = Row(agentId: string, package: Package, active: bool)

  /** The digest of a manifest identifies it, so manifests stand for their digests. */
  datatype CharterManifest = CharterManifest(
    role: string, responsibilities: seq<string>, capabilities: seq<string>, machines: seq<string>,
    taskTypes: seq<string>, repositories: seq<string>, risk: int, owner: string,
    conflicts: seq<string>, forbidden: seq<string>)

  datatype Status = Draft | Active | Superseded

  /** Charters are identified by their position in the list of all charters. */
  datatype Charter = Charter(agentId: string, version: string, manifest: CharterManifest, status: Status)

  datatype Grant = Grant(
    agentId: string, charter: nat, packageId: string, capability: string, machine: string,
    taskTypes: seq<string>, repositories: seq<string>, risk: int, owner: string, active: bool, expires: int)

  datatype Identity = Identity(
    agentId: string, charter: nat, packageId: string, version: string, active: bool, expires: int)

  const YEAR := 365 * 24 * 3600
  const GRANTOR := "founder-operator"

  predicate Subset(a: seq<string>, b: seq<string>) {
    forall x :: x in a ==> x in b
  }

  function Min(a: int, b: int): int {
    if a <= b then a else b
  }

  /** `charter_covers_package`. */
  predicate Covers(c: Charter, agent: Agent, pm: PackageManifest) {
    && c.agentId == agent.id
    && c.status.Active?
    && agent.machine in c.manifest.machines
    && Subset(pm.capabilities, c.manifest.capabilities)
    && Subset(pm.taskTypes, c.manifest.taskTypes)
    && Subset(pm.repositories, c.manifest.repositories)
    && pm.risk <= c.manifest.risk
  }

  /** The manifest this run would register. */
  function Built(agent: Agent, pm: PackageManifest): CharterManifest {
    CharterManifest(
      pm.role, ["Execute only digest-bound work inside the active role package."], pm.capabilities, [agent.machine],
      pm.taskTypes, pm.repositories, Min(agent.risk, pm.risk), "company-operations",
      [], ["capital-allocation", "order-placement", "live-trading"])
  }

  predicate Suits(c: Charter, agent: Agent, pm: PackageManifest) {
    Covers(c, agent, pm) || (c.agentId == agent.id && c.manifest == Built(agent, pm))
  }

  /** What a grant must stay inside: its package, its agent's machine and its charter. */
  ghost predicate Within(g: Grant, agent: Agent, package: Package, m: CharterManifest) {
    && g.agentId == agent.id && g.packageId == package.id && g.machine == agent.machine && g.owner == m.owner
    && g.capability in package.manifest.capabilities && g.capability in m.capabilities
    && g.capability !in m.forbidden && g.capability !in m.conflicts
    && g.machine in m.machines
    && g.taskTypes == package.manifest.taskTypes && (forall x :: x in g.taskTypes ==> x in m.taskTypes)
    && g.repositories == package.manifest.repositories && (forall x :: x in g.repositories ==> x in m.repositories)
    && g.risk <= package.manifest.risk && g.risk <= m.risk && (g.risk == package.manifest.risk || g.risk == m.risk)
  }

  /** What a charter that the script registers says: what the package needs on the agent's
      machine, no more risk than either allows, and three things that it forbids. */
  ghost predicate Drafted(c: Charter, agent: Agent, pm: PackageManifest) {
    var m := c.manifest;
    && c.agentId == agent.id
    && m.role == pm.role && m.responsibilities == ["Execute only digest-bound work inside the active role package."]
    && m.capabilities == pm.capabilities && (forall x :: x in m.capabilities ==> x in agent.capabilities)
    && m.machines == [agent.machine] && m.taskTypes == pm.taskTypes && m.repositories == pm.repositories
    && m.risk <= agent.risk && m.risk <= pm.risk && (m.risk == agent.risk || m.risk == pm.risk)
    && m.owner == "company-operations" && m.conflicts == []
    && m.forbidden == ["capital-allocation", "order-placement", "live-trading"]
  }

  /** A new charter takes a manifest and a version that are free. */
  ghost predicate Free(charters: seq<Charter>, c: Charter) {
    forall i :: 0 <= i < |charters| ==>
      charters[i].manifest != c.manifest && (charters[i].agentId != c.agentId || charters[i].version != c.version)
  }

  /** The control plane's rule for a new grant of a deployed package. */
  predicate Admits(c: Charter, agent: Agent, package: Package, g: Grant) {
    var m := c.manifest;
    && c.status.Active? && c.agentId == g.agentId
    && g.capability in m.capabilities && g.machine == agent.machine && g.machine in m.machines
    && Subset(g.taskTypes, m.taskTypes) && Subset(g.repositories, m.repositories) && g.risk <= m.risk && g.owner == m.owner
    && g.capability !in m.conflicts && g.capability !in m.forbidden
    && g.capability in package.manifest.capabilities && Subset(g.taskTypes, package.manifest.taskTypes)
    && g.owner != GRANTOR
  }

  /** What is left of that rule for the grants this script sends. */
  predicate Allowed(m: CharterManifest, capability: string) {
    capability !in m.conflicts && capability !in m.forbidden && m.owner != GRANTOR
  }

  predicate LiveGrant(g: Grant, agent: Agent, charter: nat, package: Package, capability: string, now: int) {
    g.agentId == agent.id && g.charter == charter && g.packageId == package.id && g.capability == capability
    && g.active && g.expires > now
  }

  predicate LiveIdentity(i: Identity, agent: Agent, charter: nat, package: Package, now: int) {
    i.agentId == agent.id && i.charter == charter && i.packageId == package.id && i.active && i.expires > now
  }

  /** `1.0.n` where n counts the agent's charters. */
  function CountVersion(charters: seq<Charter>, agentId: string): string {
    Versions.Render(1, 0, CountOf(charters, agentId))
  }

  function CountOf(charters: seq<Charter>, agentId: string): nat {
    if charters == [] then 0
    else CountOf(charters[..|charters| - 1], agentId) + if charters[|charters| - 1].agentId == agentId then 1 else 0
  }

  ghost predicate OneActive(charters: seq<Charter>) {
    forall i, j :: 0 <= i < j < |charters| && charters[i].status.Active? && charters[j].status.Active? ==>
                     charters[i].agentId != charters[j].agentId
  }

  ghost predicate UniqueManifests(charters: seq<Charter>) {
    forall i, j :: 0 <= i < j < |charters| ==> charters[i].manifest != charters[j].manifest
  }

  ghost predicate Rooted(grants: seq<Grant>, count: nat) {
    forall i :: 0 <= i < |grants| ==> grants[i].charter < count
  }

  ghost predicate IdentitiesRooted(identities: seq<Identity>, count: nat) {
    forall i :: 0 <= i < |identities| ==> identities[i].charter < count
  }

  /** What the control plane asks of a new charter. */
  predicate Creatable(charters: seq<Charter>, agent: Agent, version: string, manifest: CharterManifest) {
    && agent.machine in manifest.machines
    && (forall c :: c in manifest.capabilities ==> c in agent.capabilities)
    && manifest.risk <= agent.risk
    && (forall i :: 0 <= i < |charters| ==> charters[i].manifest != manifest)
    && (forall i :: 0 <= i < |charters| ==> charters[i].agentId != agent.id || charters[i].version != version)
  }

  /** Activation: the agent's previous charter is superseded. */
  function Activated(charters: seq<Charter>, k: nat): seq<Charter>
    requires k < |charters|
  {
    seq(|charters|, i requires 0 <= i < |charters| =>
      if i == k then charters[i].(status := Active)
      else if charters[i].agentId == charters[k].agentId && charters[i].status.Active? then charters[i].(status := Superseded)
      else charters[i])
  }

  /** ... and the grants that came from it are revoked. */
  function Revoked(grants: seq<Grant>, charters: seq<Charter>, k: nat): seq<Grant>
    requires k < |charters|
  {
    seq(|grants|, i requires 0 <= i < |grants| =>
      if grants[i].charter < |charters| && grants[i].charter != k && charters[grants[i].charter].status.Active?
         && charters[grants[i].charter].agentId == charters[k].agentId
      then grants[i].(active := false) else grants[i])
  }

  /** The charters as the client last saw them: positions, owners and manifests are the
      control plane's; for this agent the statuses are too. */
  ghost predicate CharterView(local: seq<Charter>, charters: seq<Charter>, agentId: string) {
    && |local| == |charters|
    && forall i :: 0 <= i < |local| ==>
         && local[i].(status := charters[i].status) == charters[i]
         && (local[i].agentId == agentId ==> local[i] == charters[i])
  }

  /** The grants as the client last saw them: for this agent's charters as they are. */
  ghost predicate GrantView(local: seq<Grant>, grants: seq<Grant>, charters: seq<Charter>, agentId: string) {
    && |local| == |grants|
    && forall i :: 0 <= i < |local| ==>
         && local[i].(active := grants[i].active) == grants[i]
         && (grants[i].charter < |charters| && charters[grants[i].charter].agentId == agentId ==> local[i] == grants[i])
  }

  ghost predicate CharterGrants(local: seq<Grant>, grants: seq<Grant>, charter: nat) {
    && |local| == |grants|
    && forall i :: 0 <= i < |local| ==>
         local[i].(active := grants[i].active) == grants[i] && (grants[i].charter == charter ==> local[i] == grants[i])
  }

  ghost predicate Granted(grants: seq<Grant>, agent: Agent, k: nat, package: Package, capability: string, now: int) {
    exists i :: 0 <= i < |grants| && LiveGrant(grants[i], agent, k, package, capability, now)
  }

  /** Some grant of the agent under this charter and package is live. */
  ghost predicate AnyLive(grants: seq<Grant>, agent: Agent, k: nat, package: Package, now: int) {
    exists i :: 0 <= i < |grants| && LiveGrant(grants[i], agent, k, package, grants[i].capability, now)
  }

  ghost predicate Identified(identities: seq<Identity>, agent: Agent, k: nat, package: Package, now: int) {
    exists i :: 0 <= i < |identities| && LiveIdentity(identities[i], agent, k, package, now)
  }

  /** Everything the loop establishes for one deployment row. */
  ghost predicate Governed(charters: seq<Charter>, grants: seq<Grant>, identities: seq<Identity>,
                           agent: Agent, package: Package, k: nat, now: int)
  {
    && k < |charters| && charters[k].status.Active? && Suits(charters[k], agent, package.manifest)
    && (forall c :: c in package.manifest.capabilities ==> Granted(grants, agent, k, package, c, now))
    && Identified(identities, agent, k, package, now)
  }

  /** With one active charter per agent and unique manifests, an active charter that
      suits the row is the one both searches lead to. */
  lemma SuitableIsUnique(charters: seq<Charter>, agent: Agent, pm: PackageManifest, k: nat, j: nat)
    requires OneActive(charters) && UniqueManifests(charters)
    requires k < |charters| && j < |charters|
    requires charters[k].status.Active? && Suits(charters[k], agent, pm)
    requires Covers(charters[j], agent, pm) || charters[j].manifest == charters[k].manifest
    ensures j == k
  {
  }

  /** When a fault-free run obtains an active charter for the row: some suitable charter
      is not superseded, or none is suitable and the new one collides with no other. */
  ghost predicate Obtainable(charters: seq<Charter>, agent: Agent, pm: PackageManifest) {
    if exists i :: 0 <= i < |charters| && Suits(charters[i], agent, pm) then
      (exists i :: 0 <= i < |charters| && Suits(charters[i], agent, pm) && !charters[i].status.Superseded?)
    else
      Creatable(charters, agent, CountVersion(charters, agent.id), Built(agent, pm))
  }

  /** No charter of the agent can serve the package: a new one is needed. */
  ghost predicate NeedsCharter(charters: seq<Charter>, agent: Agent, pm: PackageManifest) {
    forall i :: 0 <= i < |charters| ==> !Suits(charters[i], agent, pm)
  }

  /** The charter the searches lead to: one that covers the package, or else one with the
      manifest to be built. */
  ghost predicate Choice(charters: seq<Charter>, agent: Agent, pm: PackageManifest, k: nat) {
    && k < |charters| && Suits(charters[k], agent, pm)
    && ((exists i :: 0 <= i < |charters| && Covers(charters[i], agent, pm)) ==> Covers(charters[k], agent, pm))
  }

  /** The charter a row ends with: a new one if it needs one, else the one chosen. */
  ghost predicate Chosen(c0: seq<Charter>, agent: Agent, pm: PackageManifest, k: nat, c1: seq<Charter>) {
    && k < |c1|
    && if NeedsCharter(c0, agent, pm) then k == |c0| && |c1| == |c0| + 1 && c1[k].manifest == Built(agent, pm)
       else |c1| == |c0| && Choice(c0, agent, pm, k) && c1[k].manifest == c0[k].manifest
  }

  class ControlPlane {
    var charters: seq<Charter>
    var grants: seq<Grant>
    var identities: seq<Identity>

    constructor ()
      ensures charters == [] && grants == [] && identities == []
    {
      charters, grants, identities := [], [], [];
    }

    ghost predicate Valid()
      reads this
    {
      && OneActive(charters) && UniqueManifests(charters)
      && Rooted(grants, |charters|) && IdentitiesRooted(identities, |charters|)
    }

    /** Register a draft charter. The reply may be lost. */
    method CreateCharter(faults: bool, agent: Agent, version: string, manifest: CharterManifest) returns (ok: bool)
      requires Valid()
      modifies this`charters
      ensures Valid()
      ensures charters == old(charters)
              || (charters == old(charters) + [Charter(agent.id, version, manifest, Draft)]
                  && Creatable(old(charters), agent, version, manifest))
      ensures ok ==> charters == old(charters) + [Charter(agent.id, version, manifest, Draft)]
      ensures ok ==> Creatable(old(charters), agent, version, manifest)
      ensures !faults ==> (ok <==> Creatable(old(charters), agent, version, manifest))
    {
      var stop := Stops(faults);
      if stop || !Creatable(charters, agent, version, manifest) {
        return false;
      }
      charters := charters + [Charter(agent.id, version, manifest, Draft)];
      var lost := Stops(faults);
      ok := !lost;
    }

    /** Activate a charter; only a draft can be activated, an active one stays. */
    method Activate(faults: bool, k: nat) returns (ok: bool)
      requires Valid() && k < |charters|
      modifies this`charters, this`grants
      ensures Valid()
      ensures (charters == old(charters) && grants == old(grants))
              || (charters == Activated(old(charters), k) && grants == Revoked(old(grants), old(charters), k))
      ensures |charters| == |old(charters)|
      ensures charters == old(charters) || charters[k].status.Active?
      ensures ok ==> charters[k].status.Active? && !old(charters)[k].status.Superseded?
      ensures Kept(old(charters), old(grants), charters, grants, old(charters)[k].agentId)
      ensures forall i :: 0 <= i < |charters| ==> charters[i].(status := old(charters)[i].status) == old(charters)[i]
      ensures !faults ==> (ok <==> !old(charters)[k].status.Superseded?)
    {
      KeptSame(charters, grants, charters[k].agentId);
      var stop := Stops(faults);
      if stop {
        return false;
      }
      if charters[k].status.Active? {
        return true;
      }
      if !charters[k].status.Draft? {
        return false;
      }
      KeptActivated(charters, grants, k);
      charters, grants := Activated(charters, k), Revoked(grants, charters, k);
      var lost := Stops(faults);
      ok := !lost;
    }

    /** The search: a covering charter first, then one with the manifest to be built. */
    method FindCharter(agent: Agent, pm: PackageManifest, local: seq<Charter>) returns (found: Option<nat>)
      requires CharterView(local, charters, agent.id)
      ensures found.Some? ==> found.value < |charters| && Suits(charters[found.value], agent, pm)
      ensures found.Some? ==> charters[found.value].agentId == agent.id
      ensures found.Some? ==> charters[found.value].status.Active? || charters[found.value].manifest == Built(agent, pm)
      ensures found.None? ==> forall i :: 0 <= i < |charters| ==> !Suits(charters[i], agent, pm)
      ensures (exists i :: 0 <= i < |charters| && Covers(charters[i], agent, pm)) ==>
                found.Some? && Covers(charters[found.value], agent, pm)
      ensures found.Some? ==> Choice(charters, agent, pm, found.value)
      ensures found.None? ==> NeedsCharter(charters, agent, pm)
    {
      hide Covers, Built, CharterView;
      SameLength(local, charters, agent.id);
      for i := 0 to |local|
        invariant forall j :: 0 <= j < i ==> !Covers(charters[j], agent, pm)
      {
        SeenAlike(local, charters, agent, pm, i);
        if Covers(local[i], agent, pm) {
          return Some(i);
        }
      }
      for i := 0 to |local|
        invariant forall j :: 0 <= j < i ==> !Suits(charters[j], agent, pm)
      {
        SeenAlike(local, charters, agent, pm, i);
        if local[i].agentId == agent.id && local[i].manifest == Built(agent, pm) {
          return Some(i);
        }
      }
      found := None;
    }

    lemma SameLength(local: seq<Charter>, charters: seq<Charter>, agentId: string)
      requires CharterView(local, charters, agentId)
      ensures |local| == |charters|
    {
    }

    /** Status aside, the client sees every charter as it is. */
    lemma SeenAlike(local: seq<Charter>, charters: seq<Charter>, agent: Agent, pm: PackageManifest, i: nat)
      requires CharterView(local, charters, agent.id) && i < |local| && |local| == |charters|
      ensures Covers(local[i], agent, pm) <==> Covers(charters[i], agent, pm)
      ensures Covers(local[i], agent, pm) ==> local[i].agentId == agent.id && charters[i].status.Active?
      ensures local[i].agentId == charters[i].agentId && local[i].manifest == charters[i].manifest
    {
      assert local[i].(status := charters[i].status) == charters[i];
    }

    /** Find or create the charter, and activate it. */
    method EnsureCharter(faults: bool, agent: Agent, pm: PackageManifest, local: seq<Charter>)
      returns (ok: bool, k: nat, local': seq<Charter>)
      requires Valid() && CharterView(local, charters, agent.id)
      modifies this`charters, this`grants
      ensures Valid() && Kept(old(charters), old(grants), charters, grants, agent.id)
      ensures ok ==> k < |charters| && charters[k].status.Active? && Suits(charters[k], agent, pm)
      ensures forall i :: |old(charters)| <= i < |charters| ==>
                Drafted(charters[i], agent, pm) && Free(old(charters), charters[i])
      ensures ok ==> charters[k].agentId == agent.id
      ensures ok ==> local <= local' && StaleView(local', charters)
      ensures forall k :: 0 <= k < |old(charters)| && old(charters)[k].status.Active? && Suits(old(charters)[k], agent, pm) ==>
                charters == old(charters) && grants == old(grants)
      ensures ok ==> Chosen(old(charters), agent, pm, k, charters) && Obtainable(old(charters), agent, pm)
      ensures !faults ==> (ok <==> Obtainable(old(charters), agent, pm))
      ensures Obtainable(old(charters), agent, pm) ==> Obtainable(charters, agent, pm)
    {
      hide Covers, Built, Creatable, CountVersion, Activated, Revoked, UniqueManifests, OneActive, Kept, Choice, NeedsCharter,
        Drafted, Free;
      local', k := local, 0;
      var found := FindCharter(agent, pm, local);
      ChoiceSuits(charters, agent, pm);
      KeptSame(charters, grants, agent.id);
      if found.None? {
        SameCount(local, charters, agent.id);
        ok := CreateCharter(faults, agent, CountVersion(local, agent.id), Built(agent, pm));
        ghost var draft := Charter(agent.id, CountVersion(local, agent.id), Built(agent, pm), Draft);
        KeptAppend(old(charters), grants, draft);
        BuiltSuits(draft, agent, pm);
        BuiltIsDrafted(old(charters), charters, draft, agent, pm);
        assert charters == old(charters) || charters[|local|] == draft;
        if !ok {
          return;
        }
        k := |local|;
        local' := local + [charters[k]];
        ghost var mid := charters;
        ok := Activate(faults, k);
        SameManifest(old(charters), mid[k], charters[k], agent, pm);
        KeptAfterAppend(old(charters), old(grants), draft, charters, grants);
      } else {
        k := found.value;
        SuitableChoice(charters, agent, pm, k);
        if local'[k].status.Active? {
          ok := true;
        } else {
          ok := Activate(faults, k);
        }
      }
    }

    /** Create a grant, unless the control plane refuses it. */
    method CreateGrant(faults: bool, agent: Agent, package: Package, g: Grant) returns (ok: bool)
      requires Valid() && g.charter < |charters|
      modifies this`grants
      ensures Valid()
      ensures grants == old(grants) || (grants == old(grants) + [g] && Admits(charters[g.charter], agent, package, g))
      ensures ok ==> grants == old(grants) + [g]
      ensures !faults ==> (ok <==> Admits(charters[g.charter], agent, package, g))
    {
      var stop := Stops(faults);
      if stop || !Admits(charters[g.charter], agent, package, g) {
        return false;
      }
      grants := grants + [g];
      var lost := Stops(faults);
      ok := !lost;
    }

    /** A live grant for every required capability: those in force stay, the others are
        created inside both the charter and the package. Without faults they all are,
        exactly when the charter allows every one that is missing. */
    method EnsureGrants(faults: bool, agent: Agent, package: Package, k: nat, local: seq<Grant>, now: int)
      returns (ok: bool, local': seq<Grant>)
      requires Valid() && k < |charters| && charters[k].status.Active? && Suits(charters[k], agent, package.manifest)
      requires CharterGrants(local, grants, k)
      modifies this`grants
      ensures Valid() && old(grants) <= grants
      ensures forall i :: |old(grants)| <= i < |grants| ==>
                grants[i].charter == k && Within(grants[i], agent, package, charters[k].manifest)
      ensures forall i :: |old(grants)| <= i < |grants| ==> grants[i].active && grants[i].expires == now + 365 * 24 * 3600
      ensures ok ==> CharterGrants(local', grants, k) && local <= local'
      ensures ok ==> forall c :: c in package.manifest.capabilities ==> Granted(grants, agent, k, package, c, now)
      ensures old(forall c :: c in package.manifest.capabilities ==> Granted(grants, agent, k, package, c, now)) ==>
                grants == old(grants) && ok
      ensures !faults ==> (ok <==> Grantable(old(grants), charters[k].manifest, agent, k, package, now))
    {
      hide Suits, Within, OneActive, UniqueManifests, Granted, Allowed, Admits;
      var capabilities := package.manifest.capabilities;
      local' := local;
      for i := 0 to |capabilities|
        invariant Valid() && old(grants) <= grants && CharterGrants(local', grants, k) && local <= local'
        invariant forall j :: |old(grants)| <= j < |grants| ==>
                    grants[j].charter == k && Within(grants[j], agent, package, charters[k].manifest)
        invariant forall j :: |old(grants)| <= j < |grants| ==> grants[j].active && grants[j].expires == now + 365 * 24 * 3600
        invariant forall j :: 0 <= j < i ==> Granted(grants, agent, k, package, capabilities[j], now)
        invariant old(forall c :: c in package.manifest.capabilities ==> Granted(grants, agent, k, package, c, now)) ==>
                    grants == old(grants)
        invariant forall c :: Granted(old(grants), agent, k, package, c, now) ==> Granted(grants, agent, k, package, c, now)
        invariant forall c :: Granted(grants, agent, k, package, c, now) ==>
                    Granted(old(grants), agent, k, package, c, now) || Allowed(charters[k].manifest, c)
      {
        var current := FindGrant(local', agent, k, package, capabilities[i], now);
        if current {
          continue;
        }
        ghost var before := grants;
        var manifest := charters[k].manifest;
        var g := Grant(agent.id, k, package.id, capabilities[i], agent.machine, package.manifest.taskTypes,
                       package.manifest.repositories, Min(package.manifest.risk, manifest.risk), manifest.owner,
                       true, now + YEAR);
        GrantWithin(charters[k], agent, package, g);
        ok := CreateGrant(faults, agent, package, g);
        if !ok {
          return;
        }
        local' := local' + [g];
        GrantedAfter(before, g, agent, k, package, now);
      }
      ok := true;
    }

    method FindGrant(local: seq<Grant>, agent: Agent, k: nat, package: Package, capability: string, now: int)
      returns (found: bool)
      requires CharterGrants(local, grants, k)
      ensures found <==> Granted(grants, agent, k, package, capability, now)
    {
      for i := 0 to |local|
        invariant forall j :: 0 <= j < i ==> !LiveGrant(grants[j], agent, k, package, capability, now)
      {
        assert local[i].(active := grants[i].active) == grants[i];
        if LiveGrant(local[i], agent, k, package, capability, now) {
          return true;
        }
      }
      found := false;
    }

    /** Create an identity: it rests on a live grant of the same charter and package, and
        (agent, version) pairs are unique. */
    method CreateIdentity(faults: bool, agent: Agent, package: Package, i: Identity, now: int) returns (ok: bool)
      requires Valid() && i.charter < |charters|
      modifies this`identities
      ensures Valid()
      ensures identities == old(identities) || identities == old(identities) + [i]
      ensures ok ==> identities == old(identities) + [i]
      ensures !faults ==> (ok <==> IdentityAdmitted(old(identities), charters, grants, agent, package, i, now))
    {
      var stop := Stops(faults);
      var admitted := AdmitIdentity(agent, package, i, now);
      if stop || !admitted {
        return false;
      }
      identities := identities + [i];
      var lost := Stops(faults);
      ok := !lost;
    }

    method AdmitIdentity(agent: Agent, package: Package, i: Identity, now: int) returns (ok: bool)
      requires i.charter < |charters|
      ensures ok <==> IdentityAdmitted(identities, charters, grants, agent, package, i, now)
    {
      if !charters[i.charter].status.Active? || charters[i.charter].agentId != agent.id
         || exists j :: 0 <= j < |identities| && identities[j].agentId == i.agentId && identities[j].version == i.version {
        return false;
      }
      for j := 0 to |grants|
        invariant forall m :: 0 <= m < j ==> !LiveGrant(grants[m], agent, i.charter, package, grants[m].capability, now)
      {
        if LiveGrant(grants[j], agent, i.charter, package, grants[j].capability, now) {
          return true;
        }
      }
      ok := false;
    }

    /** A live identity for exactly this charter and package. A created one has a version
        the agent has never used, so it cannot collide. */
    method EnsureIdentity(faults: bool, agent: Agent, package: Package, k: nat, now: int) returns (ok: bool)
      requires Valid() && k < |charters| && charters[k].status.Active? && charters[k].agentId == agent.id
      modifies this`identities
      ensures Valid() && old(identities) <= identities
      ensures ok ==> Identified(identities, agent, k, package, now)
      ensures forall i :: |old(identities)| <= i < |identities| ==>
                && identities[i].agentId == agent.id && identities[i].charter == k && identities[i].packageId == package.id
                && identities[i].active && identities[i].expires == now + 365 * 24 * 3600
      ensures forall i :: |old(identities)| <= i < |identities| ==>
                forall j :: 0 <= j < |old(identities)| && old(identities)[j].agentId == agent.id ==>
                  identities[i].version != old(identities)[j].version
      ensures old(Identified(identities, agent, k, package, now)) ==> identities == old(identities) && ok
      ensures !faults ==> (ok <==> old(Identified(identities, agent, k, package, now)) || AnyLive(grants, agent, k, package, now))
    {
      hide OneActive, UniqueManifests, Rooted, AnyLive;
      for i := 0 to |identities|
        invariant forall j :: 0 <= j < i ==> !LiveIdentity(identities[j], agent, k, package, now)
      {
        if LiveIdentity(identities[i], agent, k, package, now) {
          return true;
        }
      }
      var versions := Versioned(identities);
      var version := Versions.NextIdentityVersion(versions, agent.id);
      VersionUnused(identities, agent.id, version);
      var identity := Identity(agent.id, k, package.id, version, true, now + YEAR);
      ok := CreateIdentity(faults, agent, package, identity, now);
      if ok {
        assert LiveIdentity(identities[|identities| - 1], agent, k, package, now);
      }
    }

    /** One deployment row. `local` and `localGrants` are the client's lists. */
    method ReconcileRow(faults: bool, agent: Agent, package: Package, local: seq<Charter>, localGrants: seq<Grant>, now: int)
      returns (ok: bool, local': seq<Charter>, localGrants': seq<Grant>, k: nat)
      requires Valid() && CharterView(local, charters, agent.id) && GrantView(localGrants, grants, charters, agent.id)
      modifies this
      ensures Valid() && TurnKept(old(charters), old(grants), charters, grants, agent.id)
      ensures NewIdentities(old(identities), identities, agent.id)
      ensures NewGrantsWithin(old(grants), grants, charters, agent, package)
      ensures forall i :: |old(charters)| <= i < |charters| ==> Drafted(charters[i], agent, package.manifest)
      ensures ok ==> Governed(charters, grants, identities, agent, package, k, now)
      ensures ok ==> Chosen(old(charters), agent, package.manifest, k, charters)
      ensures !faults ==> (ok <==> old(Ready(charters, grants, identities, agent, package, now)))
      ensures ok ==> StaleViews(local, local', charters, localGrants, localGrants', old(grants), grants)
      ensures old(exists j :: Governed(charters, grants, identities, agent, package, j, now)) ==>
                charters == old(charters) && grants == old(grants) && identities == old(identities) && (!faults ==> ok)
    {
      hide Suits, Within, OneActive, UniqueManifests, Granted, Identified, Kept, CharterView, GrantView, CharterGrants, Rooted,
        Obtainable, StaleView, StaleViews, TurnKept, NewGrantsWithin, IdentitiesRooted, Ready, Equipped, Grantable, AnyLive, Chosen, Drafted, Free;
      local', localGrants', k := local, localGrants, 0;
      ghost var c0, g0, i0 := charters, grants, identities;
      GovernedIsObtainable(c0, g0, i0, agent, package, now);
      ReadyIsObtainable(c0, g0, i0, agent, package, now);
      ok, k, local' := EnsureCharter(faults, agent, package.manifest, local);
      ghost var c1, g1 := charters, grants;
      TurnStart(c0, g0, c1, g1, agent, package);
      if !ok {
        return;
      }
      if charters == c0 {
        SameChoice(c0, g0, i0, agent, package, now, k);
      }
      ReadyIsEquipped(c0, g0, i0, c1, g1, agent, package, k, now);
      ViewOfCharter(localGrants, c0, g0, c1, g1, agent.id, k);
      ok, localGrants' := EnsureGrants(faults, agent, package, k, localGrants, now);
      TurnGranted(c0, g0, c1, g1, grants, agent, package, k);
      EquippedStages(g1, grants, i0, c1[k].manifest, agent, package, k, now);
      if !ok {
        return;
      }
      ViewsAfter(local, local', c1, localGrants, localGrants', g0, g1, grants, k);
      ok := EnsureIdentity(faults, agent, package, k, now);
      if !ok {
        return;
      }
      var stop := Stops(faults);
      ok := !stop;
    }

    /** The whole run. When it returns `ok`, every enabled agent with an active
        deployment is governed; however it ends, every grant it created lies within the
        agent's charter and newest active package, every charter it registered is drafted
        for them, so that none of its grants is for an action it forbids, and no grant
        outlives its charter; and it touches nothing when everything is governed already.
        `processed` counts the agents; the script fails on zero. */
    method Reconcile(faults: bool, agents: map<string, Agent>, rows: seq<Row>, now: int) returns (ok: bool, processed: nat)
      requires Valid() && forall id :: id in agents ==> agents[id].id == id
      modifies this
      ensures Valid()
      ensures ok ==> AllGoverned(charters, grants, identities, agents, Latest(rows), now)
      ensures ok ==> forall id :: Due(agents, Latest(rows), id) ==>
                InForce(charters, grants, identities, agents[id], Latest(rows)[id], now)
      ensures AllWithin(|old(grants)|, charters, grants, agents, Latest(rows))
      ensures AllDrafted(|old(charters)|, charters, agents, Latest(rows))
      ensures NoneForbidden(|old(charters)|, |old(grants)|, grants)
      ensures old(LiveRooted(charters, grants)) ==> LiveRooted(charters, grants)
      ensures old(AllGoverned(charters, grants, identities, agents, Latest(rows), now)) ==>
                charters == old(charters) && grants == old(grants) && identities == old(identities) && (!faults ==> ok)
      ensures !faults ==> (ok <==> old(AllReady(charters, grants, identities, agents, Latest(rows), now)))
    {
      hide OneActive, UniqueManifests, Rooted, IdentitiesRooted, CharterView, GrantView, Governed, StaleViews, TurnKept,
        NewGrantsWithin, Within, AllWithin, AllDrafted, Drafted, LiveRooted, InForce, NoneForbidden, Latest, ViewsFrom, GovernedBelow, Order, Ready, RowReady, AllReady, Behind, Ahead, AheadOne, Chosen;
      ghost var c0, g0, i0 := charters, grants, identities;
      var local, localGrants := charters, grants;
      var latest, order := BuildLatest(rows);
      OrderMeaning(rows);
      FirstViews(charters, grants, identities, agents, latest, order, now);
      ok, processed := true, 0;
      NoneNew(charters, grants, agents, latest);
      NoneForbiddenYet(charters, grants);
      AheadStart(c0, g0, i0, agents, latest, order, now);
      BehindIsAll(c0, g0, i0, agents, latest, order, now);
      for i := 0 to |order|
        invariant Valid() && ok
        invariant ViewsFrom(local, charters, localGrants, grants, order, i)
        invariant GovernedBelow(charters, grants, identities, agents, latest, order, i, now)
        invariant AllWithin(|g0|, charters, grants, agents, latest) && AllDrafted(|c0|, charters, agents, latest)
        invariant NoneForbidden(|c0|, |g0|, grants)
        invariant LiveRooted(c0, g0) ==> LiveRooted(charters, grants)
        invariant AllGoverned(c0, g0, i0, agents, latest, now) ==> charters == c0 && grants == g0 && identities == i0
        invariant Ahead(c0, g0, i0, charters, grants, identities, agents, latest, order, i, now)
        invariant !faults ==> Behind(c0, g0, i0, agents, latest, order, i, now)
      {
        var id := order[i];
        NextViews(local, charters, localGrants, grants, order, i);
        if id !in agents || !agents[id].enabled {
          AheadSkip(c0, g0, i0, charters, grants, identities, agents, latest, order, i, now);
          NoneMoreGoverned(charters, grants, identities, agents, latest, order, i, now);
          continue;
        }
        ghost var c1, g1, i1 := charters, grants, identities;
        ghost var before, beforeGrants := local, localGrants;
        var k;
        ok, local, localGrants, k := ReconcileRow(faults, agents[id], latest[id], local, localGrants, now);
        WithinKept(|g0|, c1, g1, charters, grants, agents, latest, id);
        DraftedKept(|c0|, c1, g1, charters, grants, agents, latest, id);
        ForbiddenKept(|c0|, |g0|, charters, grants, agents, latest);
        LiveKept(c1, g1, charters, grants, id);
        Decided(c0, g0, i0, c1, g1, i1, agents, latest, order, i, now);
        if !ok {
          return;
        }
        AllAhead(c0, g0, i0, c1, g1, i1, charters, grants, identities, k, agents, latest, order, i, now);
        AllViewsKept(before, local, c1, charters, beforeGrants, localGrants, g1, grants, order, i);
        OneMoreGoverned(c1, g1, i1, charters, grants, identities, k, agents, latest, order, i, now);
        processed := processed + 1;
      }
      BelowIsAll(charters, grants, identities, agents, latest, order, now);
      AllInForce(charters, grants, identities, agents, latest, now);
    }

    /** Idempotence: a run, some time, and a second, undisturbed run. When the first one
        completed and nothing in force has lapsed in between, the second one completes
        and creates nothing. */
    method Twice(faults: bool, agents: map<string, Agent>, rows: seq<Row>, now: int, later: int)
      returns (first: bool, lapsed: bool, second: bool, created: int)
      requires Valid() && forall id :: id in agents ==> agents[id].id == id
      modifies this
      ensures Valid()
      ensures first && !lapsed ==> second && created == 0
    {
      var processed;
      first, processed := Reconcile(faults, agents, rows, now);
      lapsed := !NothingExpires(grants, identities, now, later);
      var count := |charters| + |grants| + |identities|;
      if first && !lapsed {
        StillGoverned(charters, grants, identities, agents, Latest(rows), now, later);
      }
      second, processed := Reconcile(false, agents, rows, later);
      created := |charters| + |grants| + |identities| - count;
    }
  }

  /** The newest active deployment of each agent: later rows replace earlier ones. */
  function Latest(rows: seq<Row>): map<string, Package> {
    if rows == [] then
      map[]
    else
      var before, last := Latest(rows[..|rows| - 1]), rows[|rows| - 1];
      if last.active then before[last.agentId := last.package] else before
  }

  function Order(rows: seq<Row>): seq<string> {
    if rows == [] then
      []
    else
      var before, last := Order(rows[..|rows| - 1]), rows[|rows| - 1];
      if last.active && last.agentId !in before then before + [last.agentId] else before
  }

  method BuildLatest(rows: seq<Row>) returns (latest: map<string, Package>, order: seq<string>)
    ensures latest == Latest(rows) && order == Order(rows)
  {
    latest, order := map[], [];
    for i := 0 to |rows|
      invariant latest == Latest(rows[..i]) && order == Order(rows[..i])
    {
      assert rows[..i + 1][..i] == rows[..i];
      OrderMeaning(rows[..i]);
      if rows[i].active {
        if rows[i].agentId !in latest {
          order := order + [rows[i].agentId];
        }
        latest := latest[rows[i].agentId := rows[i].package];
      }
    }
    assert rows[..|rows|] == rows;
  }

  lemma {:induction false} OrderMeaning(rows: seq<Row>)
    ensures forall id :: id in Order(rows) <==> id in Latest(rows)
    ensures forall i, j :: 0 <= i < j < |Order(rows)| ==> Order(rows)[i] != Order(rows)[j]
  {
    if rows != [] {
      OrderMeaning(rows[..|rows| - 1]);
    }
  }

  /** Row `i` is the last active row of the agent. */
  predicate IsLatest(rows: seq<Row>, id: string, i: int) {
    && 0 <= i < |rows| && rows[i].agentId == id && rows[i].active
    && forall j :: i < j < |rows| ==> rows[j].agentId != id || !rows[j].active
  }

  lemma {:induction false} LatestMeaning(rows: seq<Row>, id: string)
    ensures id in Latest(rows) <==> exists i :: IsLatest(rows, id, i)
    ensures forall i :: IsLatest(rows, id, i) ==> id in Latest(rows) && Latest(rows)[id] == rows[i].package
  {
    if rows != [] {
      var before, last := rows[..|rows| - 1], rows[|rows| - 1];
      LatestMeaning(before, id);
      if last.active && last.agentId == id {
        assert IsLatest(rows, id, |before|);
      } else {
        forall i
          ensures IsLatest(before, id, i) <==> IsLatest(rows, id, i)
          ensures IsLatest(rows, id, i) ==> rows[i] == before[i]
        {
          assert forall j :: 0 <= j < |before| ==> rows[j] == before[j];
        }
      }
    }
  }

  predicate Due(agents: map<string, Agent>, latest: map<string, Package>, id: string) {
    id in latest && id in agents && agents[id].enabled
  }

  ghost predicate AllGoverned(charters: seq<Charter>, grants: seq<Grant>, identities: seq<Identity>,
                              agents: map<string, Agent>, latest: map<string, Package>, now: int)
  {
    forall id :: id in latest && Due(agents, latest, id) ==>
      exists k :: Governed(charters, grants, identities, agents[id], latest[id], k, now)
  }

  ghost predicate AllWithin(from: nat, charters: seq<Charter>, grants: seq<Grant>, agents: map<string, Agent>, latest: map<string, Package>) {
    && from <= |grants|
    && forall n :: from <= n < |grants| ==>
         && grants[n].charter < |charters| && Due(agents, latest, grants[n].agentId)
         && Within(grants[n], agents[grants[n].agentId], latest[grants[n].agentId], charters[grants[n].charter].manifest)
  }

  lemma NoneNew(charters: seq<Charter>, grants: seq<Grant>, agents: map<string, Agent>, latest: map<string, Package>)
    ensures AllWithin(|grants|, charters, grants, agents, latest) && AllDrafted(|charters|, charters, agents, latest)
  {
  }

  /** The new charters, each drafted for an agent and its newest active package. */
  ghost predicate AllDrafted(from: nat, charters: seq<Charter>, agents: map<string, Agent>, latest: map<string, Package>) {
    && from <= |charters|
    && forall n :: from <= n < |charters| ==>
         && Due(agents, latest, charters[n].agentId)
         && Drafted(charters[n], agents[charters[n].agentId], latest[charters[n].agentId].manifest)
  }

  lemma DraftedKept(from: nat, c0: seq<Charter>, g0: seq<Grant>, c1: seq<Charter>, g1: seq<Grant>,
                    agents: map<string, Agent>, latest: map<string, Package>, id: string)
    requires AllDrafted(from, c0, agents, latest) && Due(agents, latest, id) && agents[id].id == id
    requires TurnKept(c0, g0, c1, g1, id)
    requires forall i :: |c0| <= i < |c1| ==> Drafted(c1[i], agents[id], latest[id].manifest)
    ensures AllDrafted(from, c1, agents, latest)
  {
    TurnShape(c0, g0, c1, g1, id);
    hide TurnKept;
    forall n | from <= n < |c0|
      ensures Drafted(c1[n], agents[c1[n].agentId], latest[c1[n].agentId].manifest)
    {
      assert Drafted(c0[n], agents[c0[n].agentId], latest[c0[n].agentId].manifest);
    }
  }

  /** No new grant under a new charter is for one of the three actions it forbids. */
  ghost predicate NoneForbidden(fromCharter: nat, fromGrant: nat, grants: seq<Grant>) {
    forall i :: fromGrant <= i < |grants| && grants[i].charter >= fromCharter ==>
      grants[i].capability !in {"capital-allocation", "order-placement", "live-trading"}
  }

  lemma NoneForbiddenYet(charters: seq<Charter>, grants: seq<Grant>)
    ensures NoneForbidden(|charters|, |grants|, grants)
  {
  }

  lemma ForbiddenKept(fromCharter: nat, fromGrant: nat, charters: seq<Charter>, grants: seq<Grant>,
                      agents: map<string, Agent>, latest: map<string, Package>)
    requires AllWithin(fromGrant, charters, grants, agents, latest) && AllDrafted(fromCharter, charters, agents, latest)
    ensures NoneForbidden(fromCharter, fromGrant, grants)
  {
    forall i | fromGrant <= i < |grants| && grants[i].charter >= fromCharter
      ensures grants[i].capability !in {"capital-allocation", "order-placement", "live-trading"}
    {
      var c := charters[grants[i].charter];
      assert Drafted(c, agents[c.agentId], latest[c.agentId].manifest);
      assert grants[i].capability !in c.manifest.forbidden;
    }
  }

  /** No grant is active under a charter that is not. */
  ghost predicate LiveRooted(charters: seq<Charter>, grants: seq<Grant>) {
    forall i :: 0 <= i < |grants| && grants[i].active ==>
      grants[i].charter < |charters| && charters[grants[i].charter].status.Active?
  }

  lemma LiveKept(c0: seq<Charter>, g0: seq<Grant>, c1: seq<Charter>, g1: seq<Grant>, id: string)
    requires TurnKept(c0, g0, c1, g1, id)
    ensures LiveRooted(c0, g0) ==> LiveRooted(c1, g1)
  {
    if LiveRooted(c0, g0) {
      forall i | 0 <= i < |g1| && g1[i].active
        ensures g1[i].charter < |c1| && c1[g1[i].charter].status.Active?
      {
        if i < |g0| {
          LiveGrantKept(c0, g0, c1, g1[..|g0|], id, i);
          assert g1[..|g0|][i] == g1[i];
        }
      }
    }
  }

  lemma LiveGrantKept(c0: seq<Charter>, g0: seq<Grant>, c1: seq<Charter>, g1: seq<Grant>, id: string, i: nat)
    requires Kept(c0, g0, c1, g1, id) && LiveRooted(c0, g0) && i < |g0| && g1[i].active
    ensures g1[i].charter < |c1| && c1[g1[i].charter].status.Active?
  {
    var k := g0[i].charter;
    assert g1[i] == g0[i] && c0[k].status.Active?;
    assert c1[k].agentId != id ==> c1[k] == c0[k];
  }

  /** What is in force for an agent with a package, term by term: an active charter of the
      agent that allows what the package needs, a live grant of it for every capability,
      and a live identity. */
  ghost predicate InForce(charters: seq<Charter>, grants: seq<Grant>, identities: seq<Identity>, agent: Agent, package: Package, now: int) {
    exists k :: 0 <= k < |charters| && CharterInForce(charters[k], agent, package.manifest)
                && GrantsInForce(grants, agent, package, k, now) && IdentityInForce(identities, agent, package, k, now)
  }

  ghost predicate CharterInForce(c: Charter, agent: Agent, pm: PackageManifest) {
    var m := c.manifest;
    && c.agentId == agent.id && c.status == Active && agent.machine in m.machines
    && (forall x :: x in pm.capabilities ==> x in m.capabilities)
    && (forall x :: x in pm.taskTypes ==> x in m.taskTypes)
    && (forall x :: x in pm.repositories ==> x in m.repositories)
    && (m.risk >= pm.risk || m.risk == agent.risk)
  }

  ghost predicate GrantsInForce(grants: seq<Grant>, agent: Agent, package: Package, k: int, now: int) {
    forall c :: c in package.manifest.capabilities ==>
      exists i :: 0 <= i < |grants| && grants[i].capability == c && grants[i].agentId == agent.id && grants[i].charter == k
                  && grants[i].packageId == package.id && grants[i].active && now < grants[i].expires
  }

  ghost predicate IdentityInForce(identities: seq<Identity>, agent: Agent, package: Package, k: int, now: int) {
    exists i :: 0 <= i < |identities| && identities[i].agentId == agent.id && identities[i].charter == k
                && identities[i].packageId == package.id && identities[i].active && now < identities[i].expires
  }

  lemma GovernedIsInForce(charters: seq<Charter>, grants: seq<Grant>, identities: seq<Identity>, agent: Agent, package: Package, k: nat, now: int)
    requires Governed(charters, grants, identities, agent, package, k, now)
    ensures InForce(charters, grants, identities, agent, package, now)
  {
    forall c | c in package.manifest.capabilities
      ensures exists i :: 0 <= i < |grants| && grants[i].capability == c && grants[i].agentId == agent.id && grants[i].charter == k
                          && grants[i].packageId == package.id && grants[i].active && now < grants[i].expires
    {
      assert Granted(grants, agent, k, package, c, now);
      var i :| 0 <= i < |grants| && LiveGrant(grants[i], agent, k, package, c, now);
    }
    assert GrantsInForce(grants, agent, package, k, now);
    assert IdentityInForce(identities, agent, package, k, now);
    assert CharterInForce(charters[k], agent, package.manifest);
  }

  lemma AllInForce(charters: seq<Charter>, grants: seq<Grant>, identities: seq<Identity>,
                   agents: map<string, Agent>, latest: map<string, Package>, now: int)
    requires AllGoverned(charters, grants, identities, agents, latest, now)
    ensures forall id :: Due(agents, latest, id) ==> InForce(charters, grants, identities, agents[id], latest[id], now)
  {
    hide Governed, InForce;
    forall id | Due(agents, latest, id)
      ensures InForce(charters, grants, identities, agents[id], latest[id], now)
    {
      var k :| Governed(charters, grants, identities, agents[id], latest[id], k, now);
      GovernedIsInForce(charters, grants, identities, agents[id], latest[id], k, now);
    }
  }


  lemma FirstViews(charters: seq<Charter>, grants: seq<Grant>, identities: seq<Identity>,
                   agents: map<string, Agent>, latest: map<string, Package>, order: seq<string>, now: int)
    ensures ViewsFrom(charters, charters, grants, grants, order, 0)
    ensures GovernedBelow(charters, grants, identities, agents, latest, order, 0, now)
  {
  }

  lemma WithinKept(from: nat, c0: seq<Charter>, g0: seq<Grant>, c1: seq<Charter>, g1: seq<Grant>,
                   agents: map<string, Agent>, latest: map<string, Package>, id: string)
    requires AllWithin(from, c0, g0, agents, latest) && Due(agents, latest, id) && agents[id].id == id
    requires TurnKept(c0, g0, c1, g1, id) && NewGrantsWithin(g0, g1, c1, agents[id], latest[id])
    ensures AllWithin(from, c1, g1, agents, latest)
  {
    hide Subset, SupersededCharter;
    forall n | from <= n < |g0|
      ensures g1[n].(active := g0[n].active) == g0[n] && c1[g1[n].charter].manifest == c0[g0[n].charter].manifest
    {
      assert g1[..|g0|][n] == g1[n];
    }
  }

  lemma ViewsKept(local: seq<Charter>, local': seq<Charter>, c0: seq<Charter>, c1: seq<Charter>,
                  lg: seq<Grant>, lg': seq<Grant>, g0: seq<Grant>, g1: seq<Grant>, id: string, other: string)
    requires id != other && Rooted(g0, |c0|)
    requires TurnKept(c0, g0, c1, g1, id) && StaleViews(local, local', c1, lg, lg', g0, g1)
    requires CharterView(local, c0, other) && GrantView(lg, g0, c0, other)
    ensures CharterView(local', c1, other) && GrantView(lg', g1, c1, other)
  {
    forall i | 0 <= i < |g1| && g1[i].charter < |c1| && c1[g1[i].charter].agentId == other
      ensures lg'[i] == g1[i]
    {
      assert i < |g0|;
      assert g1[..|g0|][i] == g1[i];
    }
  }

  /** Both agents need a new charter, with one and the same manifest. */
  ghost predicate Twins(charters: seq<Charter>, a: Agent, pa: Package, b: Agent, pb: Package) {
    && NeedsCharter(charters, a, pa.manifest) && NeedsCharter(charters, b, pb.manifest)
    && Built(a, pa.manifest) == Built(b, pb.manifest)
  }

  /** A completed turn of one agent changes what another row needs in one way only: its
      new charter takes a manifest. */
  lemma ReadyKept(c0: seq<Charter>, g0: seq<Grant>, i0: seq<Identity>, c1: seq<Charter>, g1: seq<Grant>, i1: seq<Identity>,
                  a: Agent, pa: Package, k: nat, b: Agent, pb: Package, now: int)
    requires TurnKept(c0, g0, c1, g1, a.id) && NewGrantsWithin(g0, g1, c1, a, pa) && NewIdentities(i0, i1, a.id)
    requires Chosen(c0, a, pa.manifest, k, c1) && a.id != b.id
    ensures NeedsCharter(c1, b, pb.manifest) <==> NeedsCharter(c0, b, pb.manifest)
    ensures Ready(c1, g1, i1, b, pb, now) <==> Ready(c0, g0, i0, b, pb, now) && !Twins(c0, a, pa, b, pb)
  {
    var pm := pb.manifest;
    SuitsKept(c0, c1, g0, g1, a.id, b, pm);
    CreatableKept(c0, g0, c1, g1, a, pa.manifest, k, b, pm);
    forall j: nat
      ensures ReadyAt(c1, g1, i1, b, pb, j, now) <==> ReadyAt(c0, g0, i0, b, pb, j, now)
    {
      if Choice(c0, b, pm, j) {
        EquippedKept(c0, g0, i0, c1, g1, i1, a, pa, b, pb, j, now);
      }
    }
    hide Suits, Creatable, CountVersion, Built, Allowed, ReadyAt, TurnKept, NewGrantsWithin;
  }

  ghost predicate NewIdentities(i0: seq<Identity>, i1: seq<Identity>, agentId: string) {
    i0 <= i1 && forall i :: |i0| <= i < |i1| ==> i1[i].agentId == agentId
  }

  lemma SuitsKept(c0: seq<Charter>, c1: seq<Charter>, g0: seq<Grant>, g1: seq<Grant>, id: string, b: Agent, pm: PackageManifest)
    requires TurnKept(c0, g0, c1, g1, id) && b.id != id
    ensures NeedsCharter(c1, b, pm) <==> NeedsCharter(c0, b, pm)
    ensures forall j: nat :: Choice(c1, b, pm, j) <==> Choice(c0, b, pm, j)
    ensures forall j: nat :: Choice(c0, b, pm, j) ==> c1[j] == c0[j] && c0[j].agentId == b.id
  {
    hide Subset, Built;
    forall i | 0 <= i < |c0|
      ensures Suits(c1[i], b, pm) <==> Suits(c0[i], b, pm)
      ensures Covers(c1[i], b, pm) <==> Covers(c0[i], b, pm)
      ensures Suits(c0[i], b, pm) ==> c1[i] == c0[i] && c0[i].agentId == b.id
    {
      assert c0[i].agentId == c1[i].agentId;
    }
    assert forall i :: |c0| <= i < |c1| ==> !Suits(c1[i], b, pm) && !Covers(c1[i], b, pm);
    hide Suits, Covers;
  }

  lemma CreatableKept(c0: seq<Charter>, g0: seq<Grant>, c1: seq<Charter>, g1: seq<Grant>,
                      a: Agent, pa: PackageManifest, k: nat, b: Agent, pm: PackageManifest)
    requires TurnKept(c0, g0, c1, g1, a.id) && Chosen(c0, a, pa, k, c1) && a.id != b.id
    ensures Creatable(c1, b, CountVersion(c1, b.id), Built(b, pm))
            <==> && Creatable(c0, b, CountVersion(c0, b.id), Built(b, pm))
                 && !(NeedsCharter(c0, a, pa) && Built(a, pa) == Built(b, pm))
  {
    TurnShape(c0, g0, c1, g1, a.id);
    CountKept(c0, c1, b.id);
    hide Built, Choice, NeedsCharter, CountVersion, TurnKept;
  }

  lemma TurnShape(c0: seq<Charter>, g0: seq<Grant>, c1: seq<Charter>, g1: seq<Grant>, id: string)
    requires TurnKept(c0, g0, c1, g1, id)
    ensures |c0| <= |c1| && forall i :: |c0| <= i < |c1| ==> c1[i].agentId == id
    ensures forall i :: 0 <= i < |c0| ==>
              c0[i].manifest == c1[i].manifest && c0[i].agentId == c1[i].agentId && c0[i].version == c1[i].version
  {
    assert forall i :: 0 <= i < |c0| ==> c0[i].(status := c1[i].status) == c1[i];
  }

  lemma {:induction false} CountKept(c0: seq<Charter>, c1: seq<Charter>, id: string)
    requires |c0| <= |c1| && forall i :: 0 <= i < |c0| ==> c0[i].agentId == c1[i].agentId
    requires forall i :: |c0| <= i < |c1| ==> c1[i].agentId != id
    ensures CountVersion(c1, id) == CountVersion(c0, id)
    decreases |c1|
  {
    if |c0| == |c1| {
      SameCount(c0, c1, id);
    } else {
      CountKept(c0, c1[..|c1| - 1], id);
    }
  }

  lemma EquippedKept(c0: seq<Charter>, g0: seq<Grant>, i0: seq<Identity>, c1: seq<Charter>, g1: seq<Grant>, i1: seq<Identity>,
                     a: Agent, pa: Package, b: Agent, pb: Package, k: nat, now: int)
    requires TurnKept(c0, g0, c1, g1, a.id) && NewGrantsWithin(g0, g1, c1, a, pa) && NewIdentities(i0, i1, a.id)
    requires a.id != b.id && k < |c0| && c0[k].agentId == b.id && c1[k] == c0[k]
    ensures Equipped(g1, i1, c1[k].manifest, b, pb, k, now) <==> Equipped(g0, i0, c0[k].manifest, b, pb, k, now)
  {
    var kept := g1[..|g0|];
    forall i | 0 <= i < |g0| && (g0[i].charter == k || kept[i].charter == k)
      ensures kept[i] == g0[i]
    {
      assert g0[i].(active := kept[i].active) == kept[i];
    }
    SameGrants(g0, kept, i0, c0[k].manifest, b, pb, k, now);
    OthersGrants(kept, g1, b, pb, k, now);
    OthersIdentities(i0, i1, a.id, b, pb, k, now);
    hide Granted, AnyLive, Identified, Allowed;
  }

  lemma OthersGrants(g0: seq<Grant>, g1: seq<Grant>, b: Agent, package: Package, k: nat, now: int)
    requires g0 <= g1 && forall i :: |g0| <= i < |g1| ==> g1[i].agentId != b.id
    ensures forall c :: Granted(g1, b, k, package, c, now) <==> Granted(g0, b, k, package, c, now)
    ensures AnyLive(g1, b, k, package, now) <==> AnyLive(g0, b, k, package, now)
  {
    assert forall i :: 0 <= i < |g0| ==> g1[i] == g0[i];
  }

  lemma OthersIdentities(i0: seq<Identity>, i1: seq<Identity>, id: string, b: Agent, package: Package, k: nat, now: int)
    requires NewIdentities(i0, i1, id) && id != b.id
    ensures Identified(i1, b, k, package, now) <==> Identified(i0, b, k, package, now)
  {
    assert forall i :: 0 <= i < |i0| ==> i1[i] == i0[i];
  }

  /** When a fault-free run governs every due row: each is ready on the records it finds,
      and no two of them need a new charter with one and the same manifest. */
  ghost predicate AllReady(charters: seq<Charter>, grants: seq<Grant>, identities: seq<Identity>,
                           agents: map<string, Agent>, latest: map<string, Package>, now: int)
  {
    && (forall id :: Due(agents, latest, id) ==> RowReady(charters, grants, identities, agents, latest, id, now))
    && (forall a, b :: Due(agents, latest, a) && Due(agents, latest, b) && a != b ==> !Clash(charters, agents, latest, a, b))
  }

  ghost predicate RowReady(charters: seq<Charter>, grants: seq<Grant>, identities: seq<Identity>,
                           agents: map<string, Agent>, latest: map<string, Package>, id: string, now: int)
    requires Due(agents, latest, id)
  {
    Ready(charters, grants, identities, agents[id], latest[id], now)
  }

  ghost predicate Clash(charters: seq<Charter>, agents: map<string, Agent>, latest: map<string, Package>, a: string, b: string)
    requires Due(agents, latest, a) && Due(agents, latest, b)
  {
    Twins(charters, agents[a], latest[a], agents[b], latest[b])
  }

  ghost predicate Unclashed(charters: seq<Charter>, agents: map<string, Agent>, latest: map<string, Package>,
                            order: seq<string>, n: nat, id: string)
    requires n <= |order| && Due(agents, latest, id)
  {
    forall m :: 0 <= m < n && Due(agents, latest, order[m]) ==> !Clash(charters, agents, latest, order[m], id)
  }

  /** The client's records are good for the rows from the n-th on. */
  ghost predicate ViewsFrom(local: seq<Charter>, charters: seq<Charter>, lg: seq<Grant>, grants: seq<Grant>, order: seq<string>, n: nat)
    requires n <= |order|
  {
    forall j :: n <= j < |order| ==> CharterView(local, charters, order[j]) && GrantView(lg, grants, charters, order[j])
  }

  lemma NextViews(local: seq<Charter>, charters: seq<Charter>, lg: seq<Grant>, grants: seq<Grant>, order: seq<string>, n: nat)
    requires n < |order| && ViewsFrom(local, charters, lg, grants, order, n)
    ensures CharterView(local, charters, order[n]) && GrantView(lg, grants, charters, order[n])
    ensures ViewsFrom(local, charters, lg, grants, order, n + 1)
  {
    hide CharterView, GrantView;
  }

  lemma AllViewsKept(local: seq<Charter>, local': seq<Charter>, c0: seq<Charter>, c1: seq<Charter>,
                     lg: seq<Grant>, lg': seq<Grant>, g0: seq<Grant>, g1: seq<Grant>, order: seq<string>, n: nat)
    requires n < |order| && Rooted(g0, |c0|) && forall j :: n < j < |order| ==> order[j] != order[n]
    requires TurnKept(c0, g0, c1, g1, order[n]) && StaleViews(local, local', c1, lg, lg', g0, g1)
    requires ViewsFrom(local, c0, lg, g0, order, n)
    ensures ViewsFrom(local', c1, lg', g1, order, n + 1)
  {
    hide CharterView, GrantView, StaleViews, TurnKept, Rooted;
    forall j | n < j < |order|
      ensures CharterView(local', c1, order[j]) && GrantView(lg', g1, c1, order[j])
    {
      ViewsKept(local, local', c0, c1, lg, lg', g0, g1, order[n], order[j]);
    }
  }

  /** The due rows before the n-th are governed. */
  ghost predicate GovernedBelow(charters: seq<Charter>, grants: seq<Grant>, identities: seq<Identity>,
                                agents: map<string, Agent>, latest: map<string, Package>, order: seq<string>, n: nat, now: int)
    requires n <= |order|
  {
    forall j :: 0 <= j < n && Due(agents, latest, order[j]) ==>
      exists k :: Governed(charters, grants, identities, agents[order[j]], latest[order[j]], k, now)
  }

  lemma NoneMoreGoverned(charters: seq<Charter>, grants: seq<Grant>, identities: seq<Identity>,
                         agents: map<string, Agent>, latest: map<string, Package>, order: seq<string>, n: nat, now: int)
    requires n < |order| && !Due(agents, latest, order[n])
    requires GovernedBelow(charters, grants, identities, agents, latest, order, n, now)
    ensures GovernedBelow(charters, grants, identities, agents, latest, order, n + 1, now)
  {
    hide Governed;
  }

  lemma OneMoreGoverned(c0: seq<Charter>, g0: seq<Grant>, i0: seq<Identity>, c1: seq<Charter>, g1: seq<Grant>, i1: seq<Identity>, k: nat,
                        agents: map<string, Agent>, latest: map<string, Package>, order: seq<string>, n: nat, now: int)
    requires n < |order| && Due(agents, latest, order[n]) && forall j :: 0 <= j < n ==> order[j] != order[n]
    requires forall id :: id in agents ==> agents[id].id == id
    requires TurnKept(c0, g0, c1, g1, order[n]) && i0 <= i1
    requires GovernedBelow(c0, g0, i0, agents, latest, order, n, now)
    requires Governed(c1, g1, i1, agents[order[n]], latest[order[n]], k, now)
    ensures GovernedBelow(c1, g1, i1, agents, latest, order, n + 1, now)
  {
    hide Governed, TurnKept;
    forall j | 0 <= j < n && Due(agents, latest, order[j])
      ensures exists k :: Governed(c1, g1, i1, agents[order[j]], latest[order[j]], k, now)
    {
      var m :| Governed(c0, g0, i0, agents[order[j]], latest[order[j]], m, now);
      GovernedKept(c0, g0, i0, c1, g1, i1, agents[order[j]], latest[order[j]], m, now, order[n]);
    }
  }

  /** Once every row has had its turn, all are governed. */
  lemma BelowIsAll(charters: seq<Charter>, grants: seq<Grant>, identities: seq<Identity>,
                   agents: map<string, Agent>, latest: map<string, Package>, order: seq<string>, now: int)
    requires GovernedBelow(charters, grants, identities, agents, latest, order, |order|, now)
    requires forall id :: id in latest ==> id in order
    ensures AllGoverned(charters, grants, identities, agents, latest, now)
  {
    hide Governed;
  }

  /** The first n rows of the run were ready at its start, each with no twin before it. */
  ghost predicate Behind(charters: seq<Charter>, grants: seq<Grant>, identities: seq<Identity>,
                         agents: map<string, Agent>, latest: map<string, Package>, order: seq<string>, n: nat, now: int)
    requires n <= |order|
  {
    forall j :: 0 <= j < n && Due(agents, latest, order[j]) ==>
      && RowReady(charters, grants, identities, agents, latest, order[j], now)
      && Unclashed(charters, agents, latest, order, j, order[j])
  }

  /** What the rows from the n-th on need now, in terms of the records at the start. */
  ghost predicate Ahead(c0: seq<Charter>, g0: seq<Grant>, i0: seq<Identity>, c1: seq<Charter>, g1: seq<Grant>, i1: seq<Identity>,
                        agents: map<string, Agent>, latest: map<string, Package>, order: seq<string>, n: nat, now: int)
    requires n <= |order|
  {
    forall j :: n <= j < |order| && Due(agents, latest, order[j]) ==>
      AheadOne(c0, g0, i0, c1, g1, i1, agents, latest, order, n, order[j], now)
  }

  ghost predicate AheadOne(c0: seq<Charter>, g0: seq<Grant>, i0: seq<Identity>, c1: seq<Charter>, g1: seq<Grant>, i1: seq<Identity>,
                           agents: map<string, Agent>, latest: map<string, Package>, order: seq<string>, n: nat, id: string, now: int)
    requires n <= |order| && Due(agents, latest, id)
  {
    && (NeedsCharter(c1, agents[id], latest[id].manifest) <==> NeedsCharter(c0, agents[id], latest[id].manifest))
    && (RowReady(c1, g1, i1, agents, latest, id, now)
        <==> RowReady(c0, g0, i0, agents, latest, id, now) && Unclashed(c0, agents, latest, order, n, id))
  }

  lemma AheadStart(c0: seq<Charter>, g0: seq<Grant>, i0: seq<Identity>,
                   agents: map<string, Agent>, latest: map<string, Package>, order: seq<string>, now: int)
    ensures Ahead(c0, g0, i0, c0, g0, i0, agents, latest, order, 0, now)
    ensures Behind(c0, g0, i0, agents, latest, order, 0, now)
  {
    hide NeedsCharter, RowReady, Clash;
  }

  lemma AheadSkip(c0: seq<Charter>, g0: seq<Grant>, i0: seq<Identity>, c1: seq<Charter>, g1: seq<Grant>, i1: seq<Identity>,
                  agents: map<string, Agent>, latest: map<string, Package>, order: seq<string>, n: nat, now: int)
    requires n < |order| && !Due(agents, latest, order[n])
    requires Ahead(c0, g0, i0, c1, g1, i1, agents, latest, order, n, now)
    ensures Ahead(c0, g0, i0, c1, g1, i1, agents, latest, order, n + 1, now)
    ensures Behind(c0, g0, i0, agents, latest, order, n, now) ==> Behind(c0, g0, i0, agents, latest, order, n + 1, now)
  {
    hide NeedsCharter, RowReady, Clash;
    forall j | n < j < |order| && Due(agents, latest, order[j])
      ensures AheadOne(c0, g0, i0, c1, g1, i1, agents, latest, order, n + 1, order[j], now)
    {
      assert AheadOne(c0, g0, i0, c1, g1, i1, agents, latest, order, n, order[j], now);
    }
  }

  lemma AheadStep(c0: seq<Charter>, g0: seq<Grant>, i0: seq<Identity>, c1: seq<Charter>, g1: seq<Grant>, i1: seq<Identity>,
                  c2: seq<Charter>, g2: seq<Grant>, i2: seq<Identity>, k: nat,
                  agents: map<string, Agent>, latest: map<string, Package>, order: seq<string>, n: nat, j: nat, now: int)
    requires forall id :: id in agents ==> agents[id].id == id
    requires n < j < |order| && order[n] != order[j] && Due(agents, latest, order[n]) && Due(agents, latest, order[j])
    requires AheadOne(c0, g0, i0, c1, g1, i1, agents, latest, order, n, order[n], now)
    requires AheadOne(c0, g0, i0, c1, g1, i1, agents, latest, order, n, order[j], now)
    requires var a, pa := agents[order[n]], latest[order[n]];
             && TurnKept(c1, g1, c2, g2, a.id) && NewGrantsWithin(g1, g2, c2, a, pa) && NewIdentities(i1, i2, a.id)
             && Chosen(c1, a, pa.manifest, k, c2)
    ensures AheadOne(c0, g0, i0, c2, g2, i2, agents, latest, order, n + 1, order[j], now)
  {
    var a, pa, b, pb := agents[order[n]], latest[order[n]], agents[order[j]], latest[order[j]];
    ReadyKept(c1, g1, i1, c2, g2, i2, a, pa, k, b, pb, now);
    hide NeedsCharter, Ready, TurnKept, NewGrantsWithin, NewIdentities, Chosen, Built;
    assert Clash(c0, agents, latest, order[n], order[j]) <==> Twins(c1, a, pa, b, pb);
  }

  lemma AllAhead(c0: seq<Charter>, g0: seq<Grant>, i0: seq<Identity>, c1: seq<Charter>, g1: seq<Grant>, i1: seq<Identity>,
                 c2: seq<Charter>, g2: seq<Grant>, i2: seq<Identity>, k: nat,
                 agents: map<string, Agent>, latest: map<string, Package>, order: seq<string>, n: nat, now: int)
    requires forall id :: id in agents ==> agents[id].id == id
    requires n < |order| && Due(agents, latest, order[n]) && forall j :: n < j < |order| ==> order[j] != order[n]
    requires Ahead(c0, g0, i0, c1, g1, i1, agents, latest, order, n, now)
    requires var a, pa := agents[order[n]], latest[order[n]];
             && TurnKept(c1, g1, c2, g2, a.id) && NewGrantsWithin(g1, g2, c2, a, pa) && NewIdentities(i1, i2, a.id)
             && Chosen(c1, a, pa.manifest, k, c2)
    ensures Ahead(c0, g0, i0, c2, g2, i2, agents, latest, order, n + 1, now)
  {
    hide TurnKept, NewGrantsWithin, NewIdentities, Chosen, AheadOne;
    forall j | n < j < |order| && Due(agents, latest, order[j])
      ensures AheadOne(c0, g0, i0, c2, g2, i2, agents, latest, order, n + 1, order[j], now)
    {
      AheadStep(c0, g0, i0, c1, g1, i1, c2, g2, i2, k, agents, latest, order, n, j, now);
    }
  }

  /** The n-th row, when its turn comes. */
  lemma Decided(c0: seq<Charter>, g0: seq<Grant>, i0: seq<Identity>, c1: seq<Charter>, g1: seq<Grant>, i1: seq<Identity>,
                agents: map<string, Agent>, latest: map<string, Package>, order: seq<string>, n: nat, now: int)
    requires n < |order| && Due(agents, latest, order[n]) && forall m :: 0 <= m < n ==> order[m] != order[n]
    requires Ahead(c0, g0, i0, c1, g1, i1, agents, latest, order, n, now)
    ensures !Ready(c1, g1, i1, agents[order[n]], latest[order[n]], now) ==> !AllReady(c0, g0, i0, agents, latest, now)
    ensures Ready(c1, g1, i1, agents[order[n]], latest[order[n]], now) && Behind(c0, g0, i0, agents, latest, order, n, now) ==>
              Behind(c0, g0, i0, agents, latest, order, n + 1, now)
  {
    assert RowReady(c1, g1, i1, agents, latest, order[n], now) <==> Ready(c1, g1, i1, agents[order[n]], latest[order[n]], now);
    hide Ready, RowReady, AllReady, Clash, NeedsCharter, Unclashed;
    if !RowReady(c1, g1, i1, agents, latest, order[n], now) {
      NotReadyIsNotAll(c0, g0, i0, c1, g1, i1, agents, latest, order, n, now);
    }
  }

  /** The last row of the run decides: what lies behind it is all there is. */
  lemma BehindIsAll(c0: seq<Charter>, g0: seq<Grant>, i0: seq<Identity>,
                    agents: map<string, Agent>, latest: map<string, Package>, order: seq<string>, now: int)
    requires forall id :: id in order <==> id in latest
    ensures Behind(c0, g0, i0, agents, latest, order, |order|, now) ==> AllReady(c0, g0, i0, agents, latest, now)
  {
    hide RowReady, NeedsCharter, Built;
    if Behind(c0, g0, i0, agents, latest, order, |order|, now) {
      forall id | Due(agents, latest, id)
        ensures RowReady(c0, g0, i0, agents, latest, id, now)
      {
        var j :| 0 <= j < |order| && order[j] == id;
      }
      forall a, b | Due(agents, latest, a) && Due(agents, latest, b) && a != b
        ensures !Clash(c0, agents, latest, a, b)
      {
        var m :| 0 <= m < |order| && order[m] == a;
        var j :| 0 <= j < |order| && order[j] == b;
        var late := if m < j then j else m;
        assert Unclashed(c0, agents, latest, order, late, order[late]);
      }
    }
  }

  /** A row that is not ready when its turn comes was not at the start, or has a twin. */
  lemma NotReadyIsNotAll(c0: seq<Charter>, g0: seq<Grant>, i0: seq<Identity>, c1: seq<Charter>, g1: seq<Grant>, i1: seq<Identity>,
                         agents: map<string, Agent>, latest: map<string, Package>, order: seq<string>, n: nat, now: int)
    requires n < |order| && Due(agents, latest, order[n]) && forall m :: 0 <= m < n ==> order[m] != order[n]
    requires AheadOne(c0, g0, i0, c1, g1, i1, agents, latest, order, n, order[n], now)
    requires !RowReady(c1, g1, i1, agents, latest, order[n], now)
    ensures !AllReady(c0, g0, i0, agents, latest, now)
  {
    hide RowReady, Clash, NeedsCharter;
  }

  lemma GovernedKept(c0: seq<Charter>, g0: seq<Grant>, i0: seq<Identity>, c1: seq<Charter>, g1: seq<Grant>, i1: seq<Identity>,
                     agent: Agent, package: Package, k: nat, now: int, id: string)
    requires Governed(c0, g0, i0, agent, package, k, now) && agent.id != id
    requires TurnKept(c0, g0, c1, g1, id) && i0 <= i1
    ensures Governed(c1, g1, i1, agent, package, k, now)
  {
    hide Subset, Built;
    assert c0[k].agentId == agent.id;
    assert c1[k] == c0[k];
    forall c | c in package.manifest.capabilities
      ensures Granted(g1, agent, k, package, c, now)
    {
      assert Granted(g0, agent, k, package, c, now);
      var i :| 0 <= i < |g0| && LiveGrant(g0[i], agent, k, package, c, now);
      assert g1[..|g0|][i] == g1[i];
      assert g1[i] == g0[i];
    }
    var i :| 0 <= i < |i0| && LiveIdentity(i0[i], agent, k, package, now);
    assert i1[i] == i0[i];
  }

  predicate NothingExpires(grants: seq<Grant>, identities: seq<Identity>, now: int, later: int) {
    && (forall i :: 0 <= i < |grants| && grants[i].expires > now ==> grants[i].expires > later)
    && (forall i :: 0 <= i < |identities| && identities[i].expires > now ==> identities[i].expires > later)
  }

  lemma StillGoverned(charters: seq<Charter>, grants: seq<Grant>, identities: seq<Identity>,
                      agents: map<string, Agent>, latest: map<string, Package>, now: int, later: int)
    requires AllGoverned(charters, grants, identities, agents, latest, now) && NothingExpires(grants, identities, now, later)
    ensures AllGoverned(charters, grants, identities, agents, latest, later)
  {
    forall id | id in latest && Due(agents, latest, id)
      ensures exists k :: Governed(charters, grants, identities, agents[id], latest[id], k, later)
    {
      var k :| Governed(charters, grants, identities, agents[id], latest[id], k, now);
      GovernedLater(charters, grants, identities, agents[id], latest[id], k, now, later);
    }
  }

  lemma GovernedLater(charters: seq<Charter>, grants: seq<Grant>, identities: seq<Identity>,
                      agent: Agent, package: Package, k: nat, now: int, later: int)
    requires Governed(charters, grants, identities, agent, package, k, now) && NothingExpires(grants, identities, now, later)
    ensures Governed(charters, grants, identities, agent, package, k, later)
  {
    hide Suits;
    forall c | c in package.manifest.capabilities
      ensures Granted(grants, agent, k, package, c, later)
    {
      assert Granted(grants, agent, k, package, c, now);
      var i :| 0 <= i < |grants| && LiveGrant(grants[i], agent, k, package, c, now);
      assert LiveGrant(grants[i], agent, k, package, c, later);
    }
    var i :| 0 <= i < |identities| && LiveIdentity(identities[i], agent, k, package, now);
    assert LiveIdentity(identities[i], agent, k, package, later);
  }

  /** Manifests are unique across agents but do not name the agent: once one of two
      agents with equal manifests has its charter, the other cannot get one. */
  lemma TwinBlocked(charters: seq<Charter>, agent: Agent, pm: PackageManifest, k: nat)
    requires UniqueManifests(charters)
    requires k < |charters| && charters[k].manifest == Built(agent, pm) && charters[k].agentId != agent.id
    ensures Obtainable(charters, agent, pm) <==> exists i :: 0 <= i < |charters| && Covers(charters[i], agent, pm)
  {
    hide Subset, CountVersion;
    if i :| 0 <= i < |charters| && Covers(charters[i], agent, pm) {
      assert Suits(charters[i], agent, pm);
    }
  }

  /** The version of a new charter counts the agent's charters, and a count can name a
      version in use: with the single version 1.0.1 registered, the next is 1.0.1, and the
      control plane refuses every charter that the script could send. */
  lemma CountCollides(agent: Agent, manifest: CharterManifest, pm: PackageManifest)
    requires manifest != Built(agent, pm)
    ensures var charters := [Charter(agent.id, "1.0.1", manifest, Superseded)];
            CountVersion(charters, agent.id) == "1.0.1" && !Obtainable(charters, agent, pm)
  {
    var charters := [Charter(agent.id, "1.0.1", manifest, Superseded)];
    assert charters[..0] == [];
    assert CountOf(charters, agent.id) == 1;
    assert charters[0].version == "1.0.1";
  }

  /** One agent's turn: `Kept`, and then some grants of this agent's charter appended. */
  ghost predicate TurnKept(c0: seq<Charter>, g0: seq<Grant>, c1: seq<Charter>, g1: seq<Grant>, agentId: string) {
    && |g0| <= |g1| && Kept(c0, g0, c1, g1[..|g0|], agentId)
    && forall i :: |g0| <= i < |g1| ==>
         g1[i].charter < |c1| && c1[g1[i].charter].agentId == agentId && c1[g1[i].charter].status.Active?
  }

  ghost predicate NewGrantsWithin(g0: seq<Grant>, g1: seq<Grant>, charters: seq<Charter>, agent: Agent, package: Package) {
    forall i :: |g0| <= i < |g1| ==>
      g1[i].charter < |charters| && Within(g1[i], agent, package, charters[g1[i].charter].manifest)
  }

  ghost predicate StaleViews(local: seq<Charter>, local': seq<Charter>, charters: seq<Charter>,
                             localGrants: seq<Grant>, localGrants': seq<Grant>, g0: seq<Grant>, g1: seq<Grant>)
  {
    && local <= local' && StaleView(local', charters)
    && |localGrants'| == |g1| && |localGrants| == |g0| <= |g1|
    && localGrants <= localGrants'
    && (forall i :: 0 <= i < |g1| ==> localGrants'[i].(active := g1[i].active) == g1[i])
  }

  lemma GovernedIsObtainable(c0: seq<Charter>, g0: seq<Grant>, i0: seq<Identity>, agent: Agent, package: Package, now: int)
    ensures (exists j :: Governed(c0, g0, i0, agent, package, j, now)) ==>
              && Obtainable(c0, agent, package.manifest)
              && exists j :: 0 <= j < |c0| && c0[j].status.Active? && Suits(c0[j], agent, package.manifest)
  {
    hide Suits, Granted, Identified;
  }

  /** An agent without a charter, term by term: a fault-free run governs it exactly when its
      package needs some capability, the agent has every one of them, none is one of the
      three forbidden ones, and no other agent's charter has the manifest. */
  lemma FirstCharter(charters: seq<Charter>, grants: seq<Grant>, identities: seq<Identity>, agent: Agent, package: Package, now: int)
    requires forall i :: 0 <= i < |charters| ==> charters[i].agentId != agent.id
    ensures Ready(charters, grants, identities, agent, package, now)
            <==> && package.manifest.capabilities != []
                 && (forall c :: c in package.manifest.capabilities ==>
                       c in agent.capabilities && c !in {"capital-allocation", "order-placement", "live-trading"})
                 && (forall i :: 0 <= i < |charters| ==> !Drafted(charters[i].(agentId := agent.id), agent, package.manifest))
  {
    var pm := package.manifest;
    assert NeedsCharter(charters, agent, pm);
    if forall c :: c in pm.capabilities ==> c in agent.capabilities {
      forall i | 0 <= i < |charters|
        ensures Drafted(charters[i].(agentId := agent.id), agent, pm) <==> charters[i].manifest == Built(agent, pm)
      {
        DraftedIsBuilt(charters[i].(agentId := agent.id), agent, pm);
      }
    }
    AllowedByBuilt(agent, pm);
    hide Drafted, Built, Suits, CountVersion, Allowed;
    BuiltFits(agent, pm);
  }

  lemma DraftedIsBuilt(c: Charter, agent: Agent, pm: PackageManifest)
    requires c.agentId == agent.id && forall x :: x in pm.capabilities ==> x in agent.capabilities
    ensures Drafted(c, agent, pm) <==> c.manifest == Built(agent, pm)
  {
  }

  lemma AllowedByBuilt(agent: Agent, pm: PackageManifest)
    ensures forall c :: Allowed(Built(agent, pm), c) <==> c !in {"capital-allocation", "order-placement", "live-trading"}
  {
    assert "company-operations"[0] != GRANTOR[0];
  }

  lemma BuiltFits(agent: Agent, pm: PackageManifest)
    ensures var m := Built(agent, pm);
            agent.machine in m.machines && m.capabilities == pm.capabilities && m.risk <= agent.risk
  {
  }

  /** The count behind a version: how many charters the agent has. */
  lemma {:induction false} CountOfIs(charters: seq<Charter>, agentId: string)
    ensures CountOf(charters, agentId) == |set i: nat | i < |charters| && charters[i].agentId == agentId|
  {
    var own := set i: nat | i < |charters| && charters[i].agentId == agentId;
    if charters != [] {
      var n := |charters| - 1;
      CountOfIs(charters[..n], agentId);
      var before := set i: nat | i < |charters[..n]| && charters[..n][i].agentId == agentId;
      assert own == before + if charters[n].agentId == agentId then {n} else {};
      assert n !in before;
    }
  }

  /** What a fault-free row needs once its charter `k` is active: every grant that is missing
      is allowed, and the identity is there or has a grant to rest on. */
  ghost predicate Equipped(grants: seq<Grant>, identities: seq<Identity>, m: CharterManifest,
                           agent: Agent, package: Package, k: nat, now: int)
  {
    && Grantable(grants, m, agent, k, package, now)
    && (|| package.manifest.capabilities != []
        || AnyLive(grants, agent, k, package, now)
        || Identified(identities, agent, k, package, now))
  }

  /** When a fault-free run governs the row, on the records it finds: a charter is needed
      and can be created, and its manifest allows every grant; or the charter the searches
      lead to is not superseded and allows every grant that is missing. */
  ghost predicate Ready(charters: seq<Charter>, grants: seq<Grant>, identities: seq<Identity>,
                        agent: Agent, package: Package, now: int)
  {
    var pm := package.manifest;
    if NeedsCharter(charters, agent, pm) then
      && Creatable(charters, agent, CountVersion(charters, agent.id), Built(agent, pm))
      && pm.capabilities != [] && forall c :: c in pm.capabilities ==> Allowed(Built(agent, pm), c)
    else
      exists k :: ReadyAt(charters, grants, identities, agent, package, k, now)
  }

  ghost predicate ReadyAt(charters: seq<Charter>, grants: seq<Grant>, identities: seq<Identity>,
                          agent: Agent, package: Package, k: nat, now: int)
  {
    && Choice(charters, agent, package.manifest, k) && !charters[k].status.Superseded?
    && Equipped(grants, identities, charters[k].manifest, agent, package, k, now)
  }

  lemma ReadyIsObtainable(charters: seq<Charter>, grants: seq<Grant>, identities: seq<Identity>,
                          agent: Agent, package: Package, now: int)
    ensures Ready(charters, grants, identities, agent, package, now) ==> Obtainable(charters, agent, package.manifest)
  {
    hide Suits, Covers, Creatable, Equipped, CountVersion, Built, Allowed;
    if Ready(charters, grants, identities, agent, package, now) && !NeedsCharter(charters, agent, package.manifest) {
      var k: nat :| ReadyAt(charters, grants, identities, agent, package, k, now);
      assert Suits(charters[k], agent, package.manifest);
    }
  }

  lemma ChoiceIsUnique(charters: seq<Charter>, agent: Agent, pm: PackageManifest, k: nat, j: nat)
    requires OneActive(charters) && UniqueManifests(charters)
    requires Choice(charters, agent, pm, k) && Choice(charters, agent, pm, j)
    ensures j == k
  {
    hide Built, Subset;
    if Covers(charters[k], agent, pm) || Covers(charters[j], agent, pm) {
      SuitableIsUnique(charters, agent, pm, k, j);
    }
  }

  /** The turn of an agent leaves the grants of its own active charter as they are. */
  lemma GrantsOfCharter(c0: seq<Charter>, g0: seq<Grant>, c1: seq<Charter>, g1: seq<Grant>, agentId: string, k: nat)
    requires Kept(c0, g0, c1, g1, agentId) && k < |c1| && c1[k].status.Active?
    ensures forall i :: 0 <= i < |g0| && (g0[i].charter == k || g1[i].charter == k) ==> g1[i] == g0[i]
  {
    forall i | 0 <= i < |g0| && (g0[i].charter == k || g1[i].charter == k)
      ensures g1[i] == g0[i]
    {
      assert g0[i].(active := g1[i].active) == g1[i];
    }
  }

  lemma SameGrants(g0: seq<Grant>, g1: seq<Grant>, identities: seq<Identity>, m: CharterManifest,
                   agent: Agent, package: Package, k: nat, now: int)
    requires |g0| == |g1| && forall i :: 0 <= i < |g0| && (g0[i].charter == k || g1[i].charter == k) ==> g1[i] == g0[i]
    ensures Equipped(g1, identities, m, agent, package, k, now) <==> Equipped(g0, identities, m, agent, package, k, now)
  {
    forall c
      ensures Granted(g1, agent, k, package, c, now) <==> Granted(g0, agent, k, package, c, now)
    {
      SameGranted(g0, g1, agent, package, k, c, now);
    }
    SameLive(g0, g1, agent, package, k, now);
    hide Granted, AnyLive, Allowed, Identified;
  }

  lemma SameGranted(g0: seq<Grant>, g1: seq<Grant>, agent: Agent, package: Package, k: nat, c: string, now: int)
    requires |g0| == |g1| && forall i :: 0 <= i < |g0| && (g0[i].charter == k || g1[i].charter == k) ==> g1[i] == g0[i]
    ensures Granted(g1, agent, k, package, c, now) <==> Granted(g0, agent, k, package, c, now)
  {
    assert forall i :: 0 <= i < |g0| ==> (LiveGrant(g1[i], agent, k, package, c, now) <==> LiveGrant(g0[i], agent, k, package, c, now));
  }

  lemma SameLive(g0: seq<Grant>, g1: seq<Grant>, agent: Agent, package: Package, k: nat, now: int)
    requires |g0| == |g1| && forall i :: 0 <= i < |g0| && (g0[i].charter == k || g1[i].charter == k) ==> g1[i] == g0[i]
    ensures AnyLive(g1, agent, k, package, now) <==> AnyLive(g0, agent, k, package, now)
  {
    assert forall i :: 0 <= i < |g0| ==>
      (LiveGrant(g1[i], agent, k, package, g1[i].capability, now) <==> LiveGrant(g0[i], agent, k, package, g0[i].capability, now));
  }

  /** Nothing rests on a charter that does not exist yet. */
  lemma NewIsEquipped(grants: seq<Grant>, identities: seq<Identity>, m: CharterManifest, agent: Agent, package: Package, k: nat, now: int)
    requires Rooted(grants, k) && IdentitiesRooted(identities, k)
    ensures Equipped(grants, identities, m, agent, package, k, now)
            <==> package.manifest.capabilities != [] && forall c :: c in package.manifest.capabilities ==> Allowed(m, c)
  {
    hide Allowed;
  }

  lemma ReadyIsEquipped(c0: seq<Charter>, g0: seq<Grant>, i0: seq<Identity>, c1: seq<Charter>, g1: seq<Grant>,
                        agent: Agent, package: Package, k: nat, now: int)
    requires OneActive(c0) && UniqueManifests(c0) && Rooted(g0, |c0|) && IdentitiesRooted(i0, |c0|)
    requires Kept(c0, g0, c1, g1, agent.id) && Chosen(c0, agent, package.manifest, k, c1) && c1[k].status.Active?
    requires Obtainable(c0, agent, package.manifest)
    ensures Ready(c0, g0, i0, agent, package, now) <==> Equipped(g1, i0, c1[k].manifest, agent, package, k, now)
  {
    GrantsOfCharter(c0, g0, c1, g1, agent.id, k);
    SameGrants(g0, g1, i0, c1[k].manifest, agent, package, k, now);
    hide Suits, Covers, Creatable, Equipped, CountVersion, Built, Allowed, OneActive, UniqueManifests, Kept, Rooted, IdentitiesRooted;
    var pm := package.manifest;
    if NeedsCharter(c0, agent, pm) {
      NewIsEquipped(g0, i0, c1[k].manifest, agent, package, k, now);
    } else {
      SuitableChoice(c0, agent, pm, k);
      forall j | ReadyAt(c0, g0, i0, agent, package, j, now)
        ensures j == k
      {
        ChoiceIsUnique(c0, agent, pm, k, j);
      }
      assert Equipped(g0, i0, c0[k].manifest, agent, package, k, now) ==> ReadyAt(c0, g0, i0, agent, package, k, now);
    }
  }

  /** The two stages after the charter need what `Equipped` says. */
  lemma EquippedStages(g1: seq<Grant>, g2: seq<Grant>, identities: seq<Identity>, m: CharterManifest,
                       agent: Agent, package: Package, k: nat, now: int)
    ensures Equipped(g1, identities, m, agent, package, k, now) ==> Grantable(g1, m, agent, k, package, now)
    ensures (&& (forall c :: c in package.manifest.capabilities ==> Granted(g2, agent, k, package, c, now))
             && Grantable(g1, m, agent, k, package, now) && (package.manifest.capabilities == [] ==> g2 == g1))
            ==> (Equipped(g1, identities, m, agent, package, k, now)
                 <==> Identified(identities, agent, k, package, now) || AnyLive(g2, agent, k, package, now))
  {
    hide Grantable, Identified;
    if package.manifest.capabilities != [] {
      var c := package.manifest.capabilities[0];
      assert c in package.manifest.capabilities;
      if Granted(g2, agent, k, package, c, now) {
        var i :| 0 <= i < |g2| && LiveGrant(g2[i], agent, k, package, c, now);
        assert LiveGrant(g2[i], agent, k, package, g2[i].capability, now);
      }
    }
  }

  lemma TurnStart(c0: seq<Charter>, g0: seq<Grant>, c1: seq<Charter>, g1: seq<Grant>, agent: Agent, package: Package)
    requires Kept(c0, g0, c1, g1, agent.id)
    ensures TurnKept(c0, g0, c1, g1, agent.id) && NewGrantsWithin(g0, g1, c1, agent, package) && |g0| == |g1|
  {
    assert g1[..|g0|] == g1;
  }

  lemma TurnGranted(c0: seq<Charter>, g0: seq<Grant>, c1: seq<Charter>, g1: seq<Grant>, g2: seq<Grant>,
                    agent: Agent, package: Package, k: nat)
    requires Kept(c0, g0, c1, g1, agent.id) && g1 <= g2
    requires k < |c1| && c1[k].status.Active? && Suits(c1[k], agent, package.manifest)
    requires forall i :: |g1| <= i < |g2| ==> g2[i].charter == k && Within(g2[i], agent, package, c1[k].manifest)
    ensures TurnKept(c0, g0, c1, g2, agent.id) && NewGrantsWithin(g0, g2, c1, agent, package)
  {
    assert g2[..|g0|] == g1;
  }

  lemma SameChoice(c0: seq<Charter>, g0: seq<Grant>, i0: seq<Identity>, agent: Agent, package: Package, now: int, k: nat)
    requires OneActive(c0) && UniqueManifests(c0)
    requires k < |c0| && c0[k].status.Active? && Suits(c0[k], agent, package.manifest)
    ensures forall j :: Governed(c0, g0, i0, agent, package, j, now) ==> j == k
  {
    hide Granted, Identified;
  }

  lemma ViewOfCharter(local: seq<Grant>, c0: seq<Charter>, g0: seq<Grant>, c1: seq<Charter>, g1: seq<Grant>, agentId: string, k: nat)
    requires GrantView(local, g0, c0, agentId) && Kept(c0, g0, c1, g1, agentId) && Rooted(g0, |c0|)
    requires k < |c1| && c1[k].status.Active? && c1[k].agentId == agentId
    ensures CharterGrants(local, g1, k)
  {
    forall i | 0 <= i < |local|
      ensures local[i].(active := g1[i].active) == g1[i] && (g1[i].charter == k ==> local[i] == g1[i])
    {
      assert g0[i].(active := g1[i].active) == g1[i];
    }
  }

  lemma ViewsAfter(local: seq<Charter>, local': seq<Charter>, charters: seq<Charter>,
                   lg: seq<Grant>, lg': seq<Grant>, g0: seq<Grant>, g1: seq<Grant>, g2: seq<Grant>, k: nat)
    requires local <= local' && StaleView(local', charters)
    requires |g0| == |g1| && CharterGrants(lg, g1, k) && CharterGrants(lg', g2, k) && g1 <= g2 && lg <= lg'
    ensures StaleViews(local, local', charters, lg, lg', g0, g2)
  {
  }

  /** The control plane's rule for a new identity. */
  ghost predicate IdentityAdmitted(identities: seq<Identity>, charters: seq<Charter>, grants: seq<Grant>,
                                   agent: Agent, package: Package, i: Identity, now: int)
    requires i.charter < |charters|
  {
    && charters[i.charter].status.Active? && charters[i.charter].agentId == agent.id
    && AnyLive(grants, agent, i.charter, package, now)
    && forall j :: 0 <= j < |identities| ==> identities[j].agentId != i.agentId || identities[j].version != i.version
  }

  function Versioned(identities: seq<Identity>): seq<Versions.Identity> {
    seq(|identities|, i requires 0 <= i < |identities| => Versions.Identity(identities[i].agentId, identities[i].version))
  }

  lemma VersionUnused(identities: seq<Identity>, agentId: string, version: string)
    requires version !in Versions.Used(Versioned(identities), agentId)
    ensures forall j :: 0 <= j < |identities| && identities[j].agentId == agentId ==> identities[j].version != version
  {
    forall j | 0 <= j < |identities| && identities[j].agentId == agentId
      ensures identities[j].version != version
    {
      assert Versioned(identities)[j] in Versioned(identities);
    }
  }

  /** What a fault-free row needs for its grants under charter `k`, whose manifest is `m`. */
  ghost predicate Grantable(grants: seq<Grant>, m: CharterManifest, agent: Agent, k: nat, package: Package, now: int) {
    forall c :: c in package.manifest.capabilities ==> Granted(grants, agent, k, package, c, now) || Allowed(m, c)
  }

  lemma GrantWithin(c: Charter, agent: Agent, package: Package, g: Grant)
    requires Suits(c, agent, package.manifest) && c.status.Active?
    requires g.capability in package.manifest.capabilities
    requires g.agentId == agent.id && g.packageId == package.id && g.machine == agent.machine
    requires g.taskTypes == package.manifest.taskTypes && g.repositories == package.manifest.repositories
    requires g.risk == Min(package.manifest.risk, c.manifest.risk) && g.owner == c.manifest.owner
    ensures Admits(c, agent, package, g) ==> Within(g, agent, package, c.manifest)
    ensures Admits(c, agent, package, g) <==> Allowed(c.manifest, g.capability)
  {
  }

  lemma GrantedAfter(grants: seq<Grant>, g: Grant, agent: Agent, k: nat, package: Package, now: int)
    ensures forall c :: Granted(grants + [g], agent, k, package, c, now)
                        <==> Granted(grants, agent, k, package, c, now) || LiveGrant(g, agent, k, package, c, now)
  {
    var next := grants + [g];
    assert next[|grants|] == g;
    assert forall i :: 0 <= i < |grants| ==> next[i] == grants[i];
  }

  /** The local list of charters, whose statuses may be out of date. */
  ghost predicate StaleView(local: seq<Charter>, charters: seq<Charter>) {
    |local| == |charters| && forall i :: 0 <= i < |local| ==> local[i].(status := charters[i].status) == charters[i]
  }

  /** What one agent's turn leaves alone: other agents' charters, every manifest, and
      every grant except those of this agent's superseded charter. */
  ghost predicate Kept(c0: seq<Charter>, g0: seq<Grant>, c1: seq<Charter>, g1: seq<Grant>, agentId: string) {
    && |c0| <= |c1| && |g0| == |g1|
    && (forall i :: 0 <= i < |c0| ==>
          c0[i].(status := c1[i].status) == c1[i] && (c1[i].agentId != agentId ==> c1[i] == c0[i]))
    && (forall i :: |c0| <= i < |c1| ==> c1[i].agentId == agentId)
    && (forall i :: 0 <= i < |g0| ==> g0[i].(active := g1[i].active) == g1[i])
    && (forall i :: 0 <= i < |g0| && g0[i] != g1[i] ==> SupersededCharter(c0, c1, g0[i].charter, agentId))
    && (forall i :: 0 <= i < |g0| && SupersededCharter(c0, c1, g0[i].charter, agentId) ==> !g1[i].active)
    && (forall i :: 0 <= i < |c0| && c0[i].status.Active? ==> !c1[i].status.Draft?)
  }

  ghost predicate SupersededCharter(c0: seq<Charter>, c1: seq<Charter>, k: nat, agentId: string) {
    k < |c0| <= |c1| && c0[k].agentId == agentId && c0[k].status.Active? && c1[k].status.Superseded?
  }

  lemma KeptSame(charters: seq<Charter>, grants: seq<Grant>, agentId: string)
    ensures Kept(charters, grants, charters, grants, agentId)
  {
  }

  lemma KeptAppend(charters: seq<Charter>, grants: seq<Grant>, draft: Charter)
    ensures Kept(charters, grants, charters + [draft], grants, draft.agentId)
  {
  }

  lemma KeptActivated(charters: seq<Charter>, grants: seq<Grant>, k: nat)
    requires k < |charters| && !charters[k].status.Active?
    ensures Kept(charters, grants, Activated(charters, k), Revoked(grants, charters, k), charters[k].agentId)
  {
  }

  lemma KeptAfterAppend(c0: seq<Charter>, g0: seq<Grant>, draft: Charter, c1: seq<Charter>, g1: seq<Grant>)
    requires Kept(c0 + [draft], g0, c1, g1, draft.agentId) && draft.status.Draft?
    ensures Kept(c0, g0, c1, g1, draft.agentId)
  {
    var mid := c0 + [draft];
    forall i | 0 <= i < |g0| && g0[i] != g1[i]
      ensures SupersededCharter(c0, c1, g0[i].charter, draft.agentId)
    {
      assert SupersededCharter(mid, c1, g0[i].charter, draft.agentId);
    }
    forall i | 0 <= i < |c0|
      ensures c0[i].(status := c1[i].status) == c1[i] && (c1[i].agentId != draft.agentId ==> c1[i] == c0[i])
    {
      assert mid[i] == c0[i];
    }
    assert mid[|c0|] == draft;
  }

  lemma ChoiceSuits(charters: seq<Charter>, agent: Agent, pm: PackageManifest)
    ensures forall k :: Choice(charters, agent, pm, k) ==> !NeedsCharter(charters, agent, pm)
  {
  }

  /** The manifest built, once it is accepted. */
  lemma BuiltIsDrafted(before: seq<Charter>, charters: seq<Charter>, draft: Charter, agent: Agent, pm: PackageManifest)
    requires draft.manifest == Built(agent, pm) && draft.agentId == agent.id
    requires charters == before || (charters == before + [draft] && Creatable(before, agent, draft.version, draft.manifest))
    ensures forall i :: |before| <= i < |charters| ==> Drafted(charters[i], agent, pm) && Free(before, charters[i])
  {
  }

  lemma SameManifest(before: seq<Charter>, c: Charter, d: Charter, agent: Agent, pm: PackageManifest)
    requires c.(status := d.status) == d
    ensures Drafted(c, agent, pm) <==> Drafted(d, agent, pm)
    ensures Free(before, c) <==> Free(before, d)
  {
  }

  lemma BuiltSuits(c: Charter, agent: Agent, pm: PackageManifest)
    requires c.agentId == agent.id && c.manifest == Built(agent, pm)
    ensures Suits(c, agent, pm)
  {
  }

  /** The search may return a superseded or draft charter only when no suitable one is
      active. */
  lemma SuitableChoice(charters: seq<Charter>, agent: Agent, pm: PackageManifest, k: nat)
    requires OneActive(charters) && UniqueManifests(charters)
    requires k < |charters| && Suits(charters[k], agent, pm)
    requires (exists i :: 0 <= i < |charters| && Covers(charters[i], agent, pm)) ==> Covers(charters[k], agent, pm)
    ensures forall i :: 0 <= i < |charters| && Suits(charters[i], agent, pm) && i != k ==> !charters[i].status.Active?
    ensures forall i :: 0 <= i < |charters| && Suits(charters[i], agent, pm) && !charters[i].status.Superseded? ==>
              !charters[k].status.Superseded?
  {
  }

  lemma {:induction false} SameCount(a: seq<Charter>, b: seq<Charter>, agentId: string)
    requires |a| == |b| && forall i :: 0 <= i < |a| ==> a[i].agentId == b[i].agentId
    ensures CountVersion(a, agentId) == CountVersion(b, agentId)
  {
    SameCountOf(a, b, agentId);
  }

  lemma {:induction false} SameCountOf(a: seq<Charter>, b: seq<Charter>, agentId: string)
    requires |a| == |b| && forall i :: 0 <= i < |a| ==> a[i].agentId == b[i].agentId
    ensures CountOf(a, agentId) == CountOf(b, agentId)
  {
    if a != [] {
      SameCountOf(a[..|a| - 1], b[..|b| - 1], agentId);
    }
  }
}
