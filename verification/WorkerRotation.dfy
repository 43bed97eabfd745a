/** Rotation of a worker onto its current package: deployments and grants are ensured
    first, the credential is rotated with an overlap, the environment file is replaced
    atomically, and only then is anything revoked. A run may stop at any call. */
module WorkerRotation {
  import opened Prelude

  type Token = string

  const PREFIX := "SWARM_AGENT_TOKEN="
  const OVERLAP := 120
  const QUARTER := 90 * 24 * 3600
  const YEAR := 365 * 24 * 3600

  predicate IsEntry(line: string) {
    PREFIX <= line
  }

  ghost predicate SetsToken(line: string) {
    |line| >= 18 && line[..18] == "SWARM_AGENT_TOKEN="
  }

  lemma EntriesAre()
    ensures forall line :: IsEntry(line) <==> SetsToken(line)
  {
  }

  /** The token a reader takes from the environment: the last entry wins. */
  function TokenIn(lines: seq<string>): (token: Token) {
    if lines == [] then ""
    else if IsEntry(lines[|lines| - 1]) then lines[|lines| - 1][|PREFIX|..]
    else TokenIn(lines[..|lines| - 1])
  }

  /** Put the token into every entry; fail when there is none. */
  method ReplaceToken(lines: seq<string>, token: Token) returns (replaced: bool, output: seq<string>)
    ensures replaced <==> exists i :: 0 <= i < |lines| && SetsToken(lines[i])
    ensures |output| == |lines|
    ensures forall i :: 0 <= i < |lines| ==> output[i] == if SetsToken(lines[i]) then "SWARM_AGENT_TOKEN=" + token else lines[i]
    ensures replaced ==> TokenIn(output) == token
  {
    assert IsEntry(PREFIX + token);
    EntriesAre();
    hide IsEntry, SetsToken;
    output, replaced := [], false;
    for i := 0 to |lines|
      invariant |output| == i
      invariant forall j :: 0 <= j < i ==> output[j] == if IsEntry(lines[j]) then PREFIX + token else lines[j]
      invariant replaced <==> exists j :: 0 <= j < i && IsEntry(lines[j])
    {
      if IsEntry(lines[i]) {
        output := output + [PREFIX + token];
        replaced := true;
      } else {
        output := output + [lines[i]];
      }
    }
    if replaced {
      TokenReadBack(output, token);
    }
  }

  lemma {:induction false} TokenReadBack(lines: seq<string>, token: Token)
    requires forall i :: 0 <= i < |lines| && IsEntry(lines[i]) ==> lines[i] == PREFIX + token
    requires exists i :: 0 <= i < |lines| && IsEntry(lines[i])
    ensures TokenIn(lines) == token
  {
    if !IsEntry(lines[|lines| - 1]) {
      TokenReadBack(lines[..|lines| - 1], token);
    }
  }

  datatype Deadline = Never | At(time: int)

  predicate Before(t: int, deadline: Deadline) {
    deadline.At? ==> t < deadline.time
  }

  /** `overlapUntil` is set once a newer credential has been issued from this one; only a
      credential that a rotation issues expires. */
  datatype Credential = Credential(
    token: Token, parent: int, identity: Option<nat>, overlapUntil: Deadline, expires: Deadline, revoked: bool)

  /** Tokens are distinct and not empty; every credential was issued from an earlier one,
      or from none. */
  ghost predicate Issued(cs: seq<Credential>) {
    && (forall i, j :: 0 <= i < j < |cs| ==> Apart(cs, i, j))
    && (forall i :: 0 <= i < |cs| ==> cs[i].parent < i && cs[i].token != "")
  }

  predicate Apart(cs: seq<Credential>, i: nat, j: nat)
    requires i < |cs| && j < |cs|
  {
    cs[i].token != cs[j].token
  }

  /** Some credential with this token has not been revoked. */
  ghost predicate Unrevoked(cs: seq<Credential>, token: Token) {
    exists i :: 0 <= i < |cs| && cs[i].token == token && !cs[i].revoked
  }

  predicate SomeLive(cs: seq<Credential>) {
    exists i :: 0 <= i < |cs| && !cs[i].revoked
  }

  /** The newest credential that has not been revoked. */
  function Newest(cs: seq<Credential>): (k: nat)
    requires SomeLive(cs)
    ensures k < |cs| && !cs[k].revoked && forall i :: k < i < |cs| ==> cs[i].revoked
  {
    if !cs[|cs| - 1].revoked then
      |cs| - 1
    else
      assert SomeLive(cs[..|cs| - 1]) by {
        var i :| 0 <= i < |cs| && !cs[i].revoked;
        assert cs[..|cs| - 1][i] == cs[i];
      }
      Newest(cs[..|cs| - 1])
  }

  /** The control plane's check of a credential by itself, at time `t`. */
  predicate Current(c: Credential, t: int) {
    !c.revoked && Before(t, c.expires) && Before(t, c.overlapUntil)
  }

  ghost predicate Holds(cs: seq<Credential>, token: Token, t: int) {
    exists i :: 0 <= i < |cs| && cs[i].token == token && Current(cs[i], t)
  }

  /** `bind-credentials`: every live credential of the agent goes to the identity. */
  function Rebound(cs: seq<Credential>, id: nat): seq<Credential> {
    seq(|cs|, i requires 0 <= i < |cs| => if cs[i].revoked then cs[i] else cs[i].(identity := Some(id)))
  }

  ghost predicate BoundTo(cs: seq<Credential>, id: nat) {
    forall i :: 0 <= i < |cs| && !cs[i].revoked ==> cs[i].identity == Some(id)
  }

  /** `rotate`: the newest credential enters its overlap, a new one is issued from it that
      lives no longer than its identity. */
  function Rotated(cs: seq<Credential>, token: Token, id: nat, lifetime: int, now: int): seq<Credential>
    requires SomeLive(cs)
  {
    var prior := Newest(cs);
    cs[prior := cs[prior].(overlapUntil := At(now + OVERLAP))]
    + [Credential(token, prior, Some(id), Never, At(Min(lifetime, now + QUARTER)), false)]
  }

  function Min(a: int, b: int): int {
    if a <= b then a else b
  }

  /** `finalize`: the credential that the newest one was issued from is revoked. */
  function Finalized(cs: seq<Credential>): seq<Credential>
    requires cs != [] && 0 <= cs[|cs| - 1].parent < |cs|
  {
    var prior := cs[|cs| - 1].parent;
    cs[prior := cs[prior].(revoked := true, overlapUntil := Never)]
  }

  /** The last credential is live and was issued from an earlier one. */
  ghost predicate Pending(cs: seq<Credential>, last: nat) {
    Rotatable(cs) && last + 1 == |cs| && Newest(cs) == last && 0 <= cs[last].parent
  }

  /** Binding changes no credential by itself. */
  lemma RebindKeeps(cs: seq<Credential>, id: nat, token: Token)
    requires Issued(cs)
    ensures Issued(Rebound(cs, id)) && BoundTo(Rebound(cs, id), id)
    ensures Unrevoked(cs, token) ==> Unrevoked(Rebound(cs, id), token)
    ensures SomeLive(cs) ==> SomeLive(Rebound(cs, id)) && Newest(Rebound(cs, id)) == Newest(cs)
    ensures SomeLive(cs) ==> Rebound(cs, id)[Newest(cs)].(identity := cs[Newest(cs)].identity) == cs[Newest(cs)]
    ensures forall t :: Holds(Rebound(cs, id), token, t) <==> Holds(cs, token, t)
    ensures forall i :: 0 <= i < |cs| && cs[i].revoked ==> Rebound(cs, id)[i] == cs[i]
  {
    var next := Rebound(cs, id);
    assert forall i :: 0 <= i < |cs| ==> next[i].token == cs[i].token && next[i].revoked == cs[i].revoked;
    forall i, j | 0 <= i < j < |cs|
      ensures Apart(next, i, j)
    {
      assert Apart(cs, i, j);
    }
    if SomeLive(cs) {
      assert !next[Newest(cs)].revoked;
    }
    forall t
      ensures Holds(next, token, t) <==> Holds(cs, token, t)
    {
      SameHolds(cs, next, token, t);
    }
  }

  lemma SameHolds(cs: seq<Credential>, next: seq<Credential>, token: Token, t: int)
    requires |cs| == |next|
    requires forall i :: 0 <= i < |cs| ==> next[i].token == cs[i].token && (Current(next[i], t) <==> Current(cs[i], t))
    ensures Holds(next, token, t) <==> Holds(cs, token, t)
  {
    hide Current;
  }

  lemma HoldsAppended(cs: seq<Credential>, c: Credential, token: Token, t: int)
    ensures Holds(cs + [c], token, t) <==> Holds(cs, token, t) || (c.token == token && Current(c, t))
  {
    hide Current;
    var next := cs + [c];
    assert next[|cs|] == c;
    assert forall i :: 0 <= i < |cs| ==> next[i] == cs[i];
  }

  /** A rotation revokes nothing, and until its overlap ends every token is accepted exactly
      as before, also one that is in an earlier overlap. The new one is accepted until it
      expires: after a quarter, or with its identity. */
  lemma RotationOverlaps(cs: seq<Credential>, token: Token, id: nat, lifetime: int, now: int, disk: Token)
    requires Rotatable(cs) && Unissued(cs, token)
    ensures Unrevoked(cs, disk) ==> Unrevoked(Rotated(cs, token, id, lifetime, now), disk)
    ensures disk != token ==>
              forall t :: t < now + 120 ==> (Holds(Rotated(cs, token, id, lifetime, now), disk, t) <==> Holds(cs, disk, t))
    ensures forall t :: Holds(Rotated(cs, token, id, lifetime, now), token, t) <==> t < lifetime && t < now + 90 * 24 * 3600
  {
    var prior := Newest(cs);
    var kept := cs[prior := cs[prior].(overlapUntil := At(now + OVERLAP))];
    var added := Credential(token, prior, Some(id), Never, At(Min(lifetime, now + QUARTER)), false);
    var next := kept + [added];
    if Unrevoked(cs, disk) {
      var i :| 0 <= i < |cs| && cs[i].token == disk && !cs[i].revoked;
      assert next[i].token == disk && !next[i].revoked;
    }
    forall t
      ensures Holds(next, token, t) <==> t < lifetime && t < now + QUARTER
      ensures disk != token && t < now + OVERLAP ==> (Holds(next, disk, t) <==> Holds(cs, disk, t))
    {
      HoldsAppended(kept, added, token, t);
      HoldsAppended(kept, added, disk, t);
      if t < now + OVERLAP {
        SameHolds(cs, kept, disk, t);
      }
    }
  }

  /** What holds of the credentials between the calls of any run: the newest live one is
      not superseded. */
  ghost predicate Rotatable(cs: seq<Credential>) {
    Issued(cs) && SomeLive(cs) && cs[Newest(cs)].overlapUntil.Never?
  }

  ghost predicate Unissued(cs: seq<Credential>, token: Token) {
    token != "" && forall i :: 0 <= i < |cs| ==> cs[i].token != token
  }

  lemma RotationIssues(cs: seq<Credential>, token: Token, id: nat, lifetime: int, now: int)
    requires Rotatable(cs) && Unissued(cs, token)
    ensures var next := Rotated(cs, token, id, lifetime, now);
            && Pending(next, |cs|) && |next| == |cs| + 1
            && next[|cs|].token == token && next[|cs|].parent == Newest(cs)
            && next[Newest(cs)].token == cs[Newest(cs)].token
            && (BoundTo(cs, id) ==> BoundTo(next, id))
  {
    var next := Rotated(cs, token, id, lifetime, now);
    assert !next[|cs|].revoked;
    assert forall i :: 0 <= i < |cs| ==>
      next[i].token == cs[i].token && next[i].revoked == cs[i].revoked && next[i].parent == cs[i].parent && next[i].identity == cs[i].identity;
    forall i, j | 0 <= i < j <= |cs|
      ensures Apart(next, i, j)
    {
      assert j < |cs| ==> Apart(cs, i, j);
    }
  }

  /** Finalizing revokes the superseded credential and leaves the newest one as it is. */
  lemma FinalizeKeepsNewest(cs: seq<Credential>, last: nat)
    requires Pending(cs, last)
    ensures Rotatable(Finalized(cs)) && SameToken(cs, Finalized(cs), last)
    ensures !Unrevoked(Finalized(cs), cs[cs[last].parent].token)
  {
    FinalizeShape(cs, last);
    assert SameToken(cs, Finalized(cs), last) by {
      SameCredential(cs, Finalized(cs), last);
    }
    assert !Unrevoked(Finalized(cs), cs[cs[last].parent].token) by {
      RevokedToken(Finalized(cs), cs[last].parent);
    }
  }

  /** The k-th token is accepted at the same times in both. */
  ghost predicate SameToken(cs: seq<Credential>, next: seq<Credential>, k: nat)
    requires k < |cs|
  {
    forall t :: Holds(next, cs[k].token, t) <==> Holds(cs, cs[k].token, t)
  }

  lemma SameCredential(cs: seq<Credential>, next: seq<Credential>, k: nat)
    requires Rotatable(cs) && Rotatable(next) && k < |cs| == |next| && next[k] == cs[k]
    ensures SameToken(cs, next, k)
  {
    hide Issued, Holds, Current;
    forall t
      ensures Holds(next, cs[k].token, t) <==> Holds(cs, cs[k].token, t)
    {
      HoldsOne(cs, k, t);
      HoldsOne(next, k, t);
    }
  }

  lemma FinalizeShape(cs: seq<Credential>, last: nat)
    requires Pending(cs, last)
    ensures var next := Finalized(cs);
            && Rotatable(next) && |next| == |cs| && next[last] == cs[last]
            && next[cs[last].parent].revoked && next[cs[last].parent].token == cs[cs[last].parent].token
  {
    var next := Finalized(cs);
    assert forall i :: 0 <= i < |cs| ==> next[i].token == cs[i].token && next[i].parent == cs[i].parent;
    forall i, j | 0 <= i < j < |cs|
      ensures Apart(next, i, j)
    {
      assert Apart(cs, i, j);
    }
    assert !next[last].revoked;
  }

  lemma FinalizeKeepsBound(cs: seq<Credential>, last: nat, id: nat)
    requires Pending(cs, last) && BoundTo(cs, id)
    ensures BoundTo(Finalized(cs), id)
  {
  }

  lemma RevokedToken(cs: seq<Credential>, k: nat)
    requires Issued(cs) && k < |cs| && cs[k].revoked
    ensures !Unrevoked(cs, cs[k].token)
  {
    forall i | 0 <= i < |cs| && i != k
      ensures cs[i].token != cs[k].token
    {
      assert if i < k then Apart(cs, i, k) else Apart(cs, k, i);
    }
  }

  lemma HoldsOne(cs: seq<Credential>, k: nat, t: int)
    requires Issued(cs) && k < |cs|
    ensures Holds(cs, cs[k].token, t) <==> Current(cs[k], t)
  {
    hide Current;
    forall i | 0 <= i < |cs| && i != k
      ensures cs[i].token != cs[k].token
    {
      assert if i < k then Apart(cs, i, k) else Apart(cs, k, i);
    }
  }

  /** A token the control plane has not issued before. */
  function FreshToken(cs: seq<Credential>): (token: Token)
    ensures Unissued(cs, token)
  {
    LongerThanAll(cs);
    seq(Longest(cs) + 1, _ => '#')
  }

  function Longest(cs: seq<Credential>): nat {
    if cs == [] then 0
    else
      var rest := Longest(cs[1..]);
      if |cs[0].token| > rest then |cs[0].token| else rest
  }

  lemma {:induction false} LongerThanAll(cs: seq<Credential>)
    ensures forall i :: 0 <= i < |cs| ==> |cs[i].token| <= Longest(cs)
  {
    if cs != [] {
      LongerThanAll(cs[1..]);
      assert forall i :: 0 < i < |cs| ==> cs[i] == cs[1..][i - 1];
    }
  }

  /** A deployment or grant record of the agent; only a grant has a capability, and only
      a grant expires. Active grants are under the active charter: the control plane
      revokes the others when a charter is superseded. */
  datatype Entry = Entry(package: string, capability: string, active: bool, expires: Deadline)

  /** Identities are created active and stay so. `chartered`: the charter the identity was
      created under is still the active one. */
  datatype Identity = Identity(package: string, version: string, chartered: bool, expires: int)

  /** The package the worker is rotated onto. */
  datatype Target = Target(package: string, version: string, capabilities: seq<string>)

  /** What the control plane decides by records that a rotation does not change: the
      package is registered with the local digest or can be; the agent may deploy it; the
      agent has an active charter; the grants that this charter admits; the agent is
      enabled and the package allows the scopes of its identity. */
  datatype Policy = Policy(
    packageReady: bool, deployable: bool, charterActive: bool, admits: string -> bool, identityAdmitted: bool)

  /** Found by its status alone, whether it has expired or not. */
  predicate HasActive(entries: seq<Entry>, package: string, capability: string) {
    exists i :: 0 <= i < |entries| && entries[i].package == package && entries[i].capability == capability && entries[i].active
  }

  /** An active grant that has not expired at time `t`. */
  ghost predicate LiveAt(grants: seq<Entry>, package: string, capability: string, t: int) {
    exists i :: 0 <= i < |grants| && IsLive(grants[i], package, capability, t)
  }

  predicate IsLive(grant: Entry, package: string, capability: string, t: int) {
    grant.package == package && grant.capability == capability && grant.active && Before(t, grant.expires)
  }

  /** The control plane keeps at most one deployment per package, active or not. */
  predicate OnePerPackage(entries: seq<Entry>) {
    forall i, j :: 0 <= i < j < |entries| ==> entries[i].package != entries[j].package
  }

  /** And one identity per version, of whatever package. */
  predicate OnePerVersion(identities: seq<Identity>) {
    forall i, j :: 0 <= i < j < |identities| ==> identities[i].version != identities[j].version
  }

  /** An active deployment exists, or the package has none at all and may be deployed. */
  predicate Deployable(entries: seq<Entry>, package: string, deployable: bool) {
    HasActive(entries, package, "") || (deployable && forall i :: 0 <= i < |entries| ==> entries[i].package != package)
  }

  /** Every capability is granted, or the charter admits its grant. */
  predicate Grantable(grants: seq<Entry>, target: Target, admits: string -> bool) {
    forall k :: 0 <= k < |target.capabilities| ==>
      HasActive(grants, target.package, target.capabilities[k]) || admits(target.capabilities[k])
  }

  /** The grants a new identity rests on: one of the package is live, or one is missing, so
      that a new one will be. */
  predicate GrantsLive(grants: seq<Entry>, target: Target, now: int) {
    || (exists i :: 0 <= i < |grants| && grants[i].package == target.package && grants[i].active && Before(now, grants[i].expires))
    || Missing(grants, target)
  }

  /** Some grant of the package is in force. */
  ghost predicate RestsOnGrant(grants: seq<Entry>, target: Target, now: int) {
    exists i :: 0 <= i < |grants| && grants[i].package == target.package && grants[i].active
                && (grants[i].expires == Never || now < grants[i].expires.time)
  }

  predicate Missing(grants: seq<Entry>, target: Target) {
    exists k :: 0 <= k < |target.capabilities| && !HasActive(grants, target.package, target.capabilities[k])
  }

  /** The first identity of the package in the listing, which is ordered by creation. */
  function Found(identities: seq<Identity>, package: string): (k: Option<nat>)
    ensures k.Some? ==> k.value < |identities| && identities[k.value].package == package
    ensures k.Some? ==> forall i :: 0 <= i < k.value ==> identities[i].package != package
    ensures k.None? ==> forall i :: 0 <= i < |identities| ==> identities[i].package != package
  {
    if identities == [] then None
    else
      var before := Found(identities[..|identities| - 1], package);
      if before.Some? then before
      else if identities[|identities| - 1].package == package then Some(|identities| - 1) else None
  }

  /** The package has an identity, or may have one under a version that no identity of the
      agent has. */
  predicate Identifiable(identities: seq<Identity>, target: Target, admitted: bool) {
    || Found(identities, target.package).Some?
    || (admitted && forall i :: 0 <= i < |identities| ==> identities[i].version != target.version)
  }

  /** A target without an identity is blocked by another package's identity of its version. */
  lemma VersionTaken(identities: seq<Identity>, target: Target, admitted: bool, i: nat)
    requires i < |identities| && identities[i].version == target.version && Found(identities, target.package).None?
    ensures !Identifiable(identities, target, admitted)
  {
  }

  /** What workload-identity enforcement asks of the identity a credential is bound to. */
  ghost predicate Authorized(x: Identity, deployments: seq<Entry>, grants: seq<Entry>, capabilities: seq<string>, t: int) {
    && t < x.expires && x.chartered
    && HasActive(deployments, x.package, "")
    && forall k :: 0 <= k < |capabilities| ==> LiveAt(grants, x.package, capabilities[k], t)
  }

  /** A grant live at time `t` once the missing ones are posted. */
  ghost predicate WillBeLive(grants: seq<Entry>, package: string, capability: string, t: int, now: int) {
    LiveAt(grants, package, capability, t) || (!HasActive(grants, package, capability) && t < now + YEAR)
  }

  ghost predicate GrantsAt(grants: seq<Entry>, target: Target, t: int, now: int) {
    forall k :: 0 <= k < |target.capabilities| ==> WillBeLive(grants, target.package, target.capabilities[k], t, now)
  }

  /** When the identity found expires, or the one to be posted will. */
  function Expiry(identities: seq<Identity>, target: Target, now: int): int {
    var found := Found(identities, target.package);
    if found.Some? then identities[found.value].expires else now + YEAR
  }

  /** The charter of the identity found is in force; a new identity rests on one. */
  predicate Chartered(identities: seq<Identity>, target: Target) {
    var found := Found(identities, target.package);
    found.Some? ==> identities[found.value].chartered
  }

  lemma FoundThen(before: seq<Identity>, after: seq<Identity>, target: Target, now: int, k: nat)
    requires Found(after, target.package) == Some(k)
    requires after == before
             || (Found(before, target.package).None?
                 && after == before + [Identity(target.package, target.version, true, now + YEAR)])
    ensures after[k].package == target.package
    ensures after[k].expires == Expiry(before, target, now) && (after[k].chartered <==> Chartered(before, target))
  {
  }

  predicate OnlyActive(entries: seq<Entry>, package: string) {
    forall i :: 0 <= i < |entries| && entries[i].active ==> entries[i].package == package
  }

  /** Find the active deployment of the package, or post it. */
  method EnsureDeployment(entries: seq<Entry>, package: string, deployable: bool, faults: bool)
    returns (ok: bool, after: seq<Entry>)
    requires OnePerPackage(entries)
    ensures OnePerPackage(after)
    ensures after == entries || after == entries + [Entry(package, "", true, Never)]
    ensures Deployable(after, package, deployable) == Deployable(entries, package, deployable)
    ensures ok ==> HasActive(after, package, "")
    ensures HasActive(entries, package, "") ==> after == entries
    ensures entries <= after
    ensures !faults ==> (ok <==> Deployable(entries, package, deployable))
  {
    after := entries;
    var stop := Stops(faults);
    if stop || !Deployable(entries, package, deployable) {
      return false, after;
    }
    if !HasActive(entries, package, "") {
      after := entries + [Entry(package, "", true, Never)];
      assert after[|entries|] == Entry(package, "", true, Never);
    }
    stop := Stops(faults);
    ok := !stop;
  }

  /** Find the identity of the package, or post it under the package's version. */
  method EnsureIdentity(identities: seq<Identity>, target: Target, admitted: bool, now: int, faults: bool)
    returns (ok: bool, after: seq<Identity>, k: nat)
    requires OnePerVersion(identities)
    ensures OnePerVersion(after)
    ensures after == identities
            || (admitted && Found(identities, target.package).None?
                && after == identities + [Identity(target.package, target.version, true, now + YEAR)])
    ensures Identifiable(after, target, admitted) <==> Identifiable(identities, target, admitted)
    ensures ok ==> Found(after, target.package) == Some(k)
    ensures ok ==> if Found(identities, target.package).Some? then after == identities else |after| == |identities| + 1
    ensures !faults ==> (ok <==> Identifiable(identities, target, admitted))
  {
    after, k := identities, 0;
    var stop := Stops(faults);
    if stop || !Identifiable(identities, target, admitted) {
      return false, after, k;
    }
    var found := Found(identities, target.package);
    if found.Some? {
      return true, after, found.value;
    }
    k := |identities|;
    after := identities + [Identity(target.package, target.version, true, now + YEAR)];
    assert after[..|identities|] == identities;
    stop := Stops(faults);
    ok := !stop;
  }

  /** One active grant per required capability: found, or posted if the charter admits it. */
  method EnsureGrants(grants: seq<Entry>, target: Target, admits: string -> bool, now: int, faults: bool)
    returns (ok: bool, after: seq<Entry>)
    ensures grants <= after
    ensures forall i :: |grants| <= i < |after| ==> after[i].package == target.package
    ensures Grantable(after, target, admits) <==> Grantable(grants, target, admits)
    ensures GrantsLive(after, target, now) <==> GrantsLive(grants, target, now)
    ensures forall t :: GrantsAt(after, target, t, now) <==> GrantsAt(grants, target, t, now)
    ensures forall i :: |grants| <= i < |after| ==> after[i].expires == At(now + YEAR)
    ensures ok ==> !Missing(after, target)
    ensures !faults ==> (ok <==> Grantable(grants, target, admits))
  {
    hide GrantsLive, GrantsAt, Grantable, Missing, HasActive;
    after := grants;
    for k := 0 to |target.capabilities|
      invariant grants <= after
      invariant forall i :: |grants| <= i < |after| ==> after[i].package == target.package
      invariant forall j :: 0 <= j < k ==> HasActive(after, target.package, target.capabilities[j])
      invariant Grantable(after, target, admits) <==> Grantable(grants, target, admits)
      invariant GrantsLive(after, target, now) <==> GrantsLive(grants, target, now)
      invariant forall t :: GrantsAt(after, target, t, now) <==> GrantsAt(grants, target, t, now)
      invariant forall i :: |grants| <= i < |after| ==> after[i].expires == At(now + YEAR)
    {
      var stop := Stops(faults);
      if stop {
        return false, after;
      }
      var capability := target.capabilities[k];
      if !HasActive(after, target.package, capability) {
        if !admits(capability) {
          NotGrantable(after, target, admits, k);
          return false, after;
        }
        GrantPosted(after, target, admits, k, now);
        after := after + [Entry(target.package, capability, true, At(now + YEAR))];
      }
      stop := Stops(faults);
      if stop {
        return false, after;
      }
    }
    AllGranted(after, target, admits);
    ok := true;
  }

  lemma NotGrantable(grants: seq<Entry>, target: Target, admits: string -> bool, k: nat)
    requires k < |target.capabilities| && !admits(target.capabilities[k])
    requires !HasActive(grants, target.package, target.capabilities[k])
    ensures !Grantable(grants, target, admits)
  {
  }

  lemma AllGranted(grants: seq<Entry>, target: Target, admits: string -> bool)
    requires forall k :: 0 <= k < |target.capabilities| ==> HasActive(grants, target.package, target.capabilities[k])
    ensures Grantable(grants, target, admits) && !Missing(grants, target)
  {
  }

  /** A posted grant changes neither what can be granted nor that grants will be live. */
  lemma GrantPosted(grants: seq<Entry>, target: Target, admits: string -> bool, k: nat, now: int)
    requires k < |target.capabilities| && admits(target.capabilities[k])
    requires !HasActive(grants, target.package, target.capabilities[k])
    ensures var after := grants + [Entry(target.package, target.capabilities[k], true, At(now + YEAR))];
            && HasActive(after, target.package, target.capabilities[k])
            && (forall c :: HasActive(grants, target.package, c) ==> HasActive(after, target.package, c))
            && (Grantable(after, target, admits) <==> Grantable(grants, target, admits))
            && (GrantsLive(after, target, now) <==> GrantsLive(grants, target, now))
            && (forall t :: GrantsAt(after, target, t, now) <==> GrantsAt(grants, target, t, now))
  {
    var entry := Entry(target.package, target.capabilities[k], true, At(now + YEAR));
    var after := grants + [entry];
    assert after[|grants|] == entry;
    forall c
      ensures HasActive(after, target.package, c) <==> HasActive(grants, target.package, c) || c == entry.capability
    {
      GrantAdded(grants, entry, c);
    }
    forall c, t
      ensures WillBeLive(after, target.package, c, t, now) <==> WillBeLive(grants, target.package, c, t, now)
    {
      LiveAdded(grants, entry, c, t);
      NotLive(grants, target.package, c, t);
    }
    hide HasActive, WillBeLive;
  }

  lemma LiveAdded(grants: seq<Entry>, entry: Entry, capability: string, t: int)
    ensures LiveAt(grants + [entry], entry.package, capability, t)
            <==> LiveAt(grants, entry.package, capability, t) || IsLive(entry, entry.package, capability, t)
  {
    var after := grants + [entry];
    assert after[|grants|] == entry;
    assert forall i :: 0 <= i < |grants| ==> after[i] == grants[i];
  }

  lemma NotLive(grants: seq<Entry>, package: string, capability: string, t: int)
    ensures !HasActive(grants, package, capability) ==> !LiveAt(grants, package, capability, t)
  {
  }

  lemma GrantAdded(grants: seq<Entry>, entry: Entry, capability: string)
    requires entry.active
    ensures HasActive(grants + [entry], entry.package, capability)
            <==> HasActive(grants, entry.package, capability) || capability == entry.capability
  {
    var after := grants + [entry];
    assert after[|grants|] == entry;
    assert forall i :: 0 <= i < |grants| ==> after[i] == grants[i];
  }

  /** Revoke, one by one, the first `known` records that are active for another package. */
  method RevokeOthers(entries: seq<Entry>, known: nat, package: string, faults: bool)
    returns (ok: bool, after: seq<Entry>)
    requires known <= |entries|
    requires forall i :: known <= i < |entries| ==> entries[i].package == package
    ensures |after| == |entries|
    ensures forall i :: 0 <= i < |entries| ==>
              after[i] == entries[i] || (entries[i].package != package && after[i] == entries[i].(active := false))
    ensures ok ==> OnlyActive(after, package)
    ensures !faults ==> ok
  {
    after := entries;
    for k := 0 to known
      invariant |after| == |entries|
      invariant forall i :: k <= i < |entries| ==> after[i] == entries[i]
      invariant forall i :: 0 <= i < k ==>
                  after[i] == entries[i] || (entries[i].package != package && after[i] == entries[i].(active := false))
      invariant forall i :: 0 <= i < k && after[i].active ==> after[i].package == package
    {
      if entries[k].active && entries[k].package != package {
        var stop := Stops(faults);
        if stop {
          return false, after;
        }
        after := after[k := entries[k].(active := false)];
        stop := Stops(faults);
        if stop {
          return false, after;
        }
      }
    }
    ok := true;
  }

  lemma RevocationKeeps(entries: seq<Entry>, after: seq<Entry>, package: string, capability: string)
    requires |after| == |entries|
    requires forall i :: 0 <= i < |entries| ==>
               after[i] == entries[i] || (entries[i].package != package && after[i] == entries[i].(active := false))
    ensures HasActive(after, package, capability) <==> HasActive(entries, package, capability)
  {
    if HasActive(entries, package, capability) {
      var i :| 0 <= i < |entries| && entries[i].package == package && entries[i].capability == capability && entries[i].active;
      assert after[i] == entries[i];
    }
  }

  lemma RevocationKeepsGrants(grants: seq<Entry>, after: seq<Entry>, target: Target, admits: string -> bool, now: int)
    requires |after| == |grants|
    requires forall i :: 0 <= i < |grants| ==>
               after[i] == grants[i] || (grants[i].package != target.package && after[i] == grants[i].(active := false))
    ensures Missing(after, target) <==> Missing(grants, target)
    ensures Grantable(after, target, admits) <==> Grantable(grants, target, admits)
    ensures GrantsLive(after, target, now) <==> GrantsLive(grants, target, now)
    ensures forall c, t :: LiveAt(after, target.package, c, t) <==> LiveAt(grants, target.package, c, t)
  {
    forall c, t
      ensures LiveAt(after, target.package, c, t) <==> LiveAt(grants, target.package, c, t)
    {
      assert forall i :: 0 <= i < |grants| ==> IsLive(after[i], target.package, c, t) == IsLive(grants[i], target.package, c, t);
    }
    forall capability
      ensures HasActive(after, target.package, capability) <==> HasActive(grants, target.package, capability)
    {
      RevocationKeeps(grants, after, target.package, capability);
    }
    hide HasActive;
    forall i | 0 <= i < |grants| && grants[i].package == target.package
      ensures after[i] == grants[i]
    {
    }
  }

  lemma RevocationKeepsDeployable(entries: seq<Entry>, after: seq<Entry>, package: string, deployable: bool)
    requires |after| == |entries|
    requires forall i :: 0 <= i < |entries| ==>
               after[i] == entries[i] || (entries[i].package != package && after[i] == entries[i].(active := false))
    ensures Deployable(after, package, deployable) == Deployable(entries, package, deployable)
    ensures OnePerPackage(entries) ==> OnePerPackage(after)
  {
    RevocationKeeps(entries, after, package, "");
    hide HasActive;
    assert forall i :: 0 <= i < |entries| ==> after[i].package == entries[i].package;
  }

  /** What the control plane goes by besides its records: the capabilities that the manifest
      of a registered package requires, and whether workload identities are enforced. */
  datatype Rules = Rules(required: string -> seq<string>, enforced: bool)

  ghost predicate Cleared(rules: Rules, identities: seq<Identity>, deployments: seq<Entry>, grants: seq<Entry>, c: Credential, t: int) {
    rules.enforced ==>
      && c.identity.Some? && c.identity.value < |identities|
      && var x := identities[c.identity.value];
         Authorized(x, deployments, grants, rules.required(x.package), t)
  }

  /** The control plane's check of a token presented at time `t`. */
  ghost predicate Accepted(rules: Rules, identities: seq<Identity>, deployments: seq<Entry>, grants: seq<Entry>,
                           cs: seq<Credential>, token: Token, t: int)
  {
    exists i :: 0 <= i < |cs| && cs[i].token == token && Current(cs[i], t)
                && Cleared(rules, identities, deployments, grants, cs[i], t)
  }

  lemma AuthorizedGrows(x: Identity, d0: seq<Entry>, g0: seq<Entry>, d1: seq<Entry>, g1: seq<Entry>, capabilities: seq<string>, t: int)
    requires d0 <= d1 && g0 <= g1 && Authorized(x, d0, g0, capabilities, t)
    ensures Authorized(x, d1, g1, capabilities, t)
  {
    var i :| 0 <= i < |d0| && d0[i].package == x.package && d0[i].capability == "" && d0[i].active;
    assert d1[i] == d0[i];
    forall k | 0 <= k < |capabilities|
      ensures LiveAt(g1, x.package, capabilities[k], t)
    {
      assert LiveAt(g0, x.package, capabilities[k], t);
      var j :| 0 <= j < |g0| && IsLive(g0[j], x.package, capabilities[k], t);
      assert g1[j] == g0[j];
    }
  }

  /** More records: nothing that was accepted is refused. */
  lemma AcceptedGrows(rules: Rules, i0: seq<Identity>, d0: seq<Entry>, g0: seq<Entry>,
                      i1: seq<Identity>, d1: seq<Entry>, g1: seq<Entry>, cs: seq<Credential>, token: Token, t: int)
    requires i0 <= i1 && d0 <= d1 && g0 <= g1 && Accepted(rules, i0, d0, g0, cs, token, t)
    ensures Accepted(rules, i1, d1, g1, cs, token, t)
  {
    hide Authorized, Current;
    var i :| 0 <= i < |cs| && cs[i].token == token && Current(cs[i], t) && Cleared(rules, i0, d0, g0, cs[i], t);
    if rules.enforced {
      var x := i0[cs[i].identity.value];
      AuthorizedGrows(x, d0, g0, d1, g1, rules.required(x.package), t);
    }
    assert Cleared(rules, i1, d1, g1, cs[i], t);
  }

  /** Once all live credentials are bound to one identity, a token is accepted exactly when
      its credential is and, under enforcement, that identity is authorized. */
  lemma AcceptedBound(rules: Rules, identities: seq<Identity>, deployments: seq<Entry>, grants: seq<Entry>,
                      cs: seq<Credential>, id: nat, token: Token, t: int)
    requires BoundTo(cs, id) && id < |identities|
    ensures var x := identities[id];
            Accepted(rules, identities, deployments, grants, cs, token, t)
            <==> Holds(cs, token, t) && (rules.enforced ==> Authorized(x, deployments, grants, rules.required(x.package), t))
  {
    hide Authorized;
    var x := identities[id];
    forall i | 0 <= i < |cs| && Current(cs[i], t)
      ensures Cleared(rules, identities, deployments, grants, cs[i], t)
              <==> (rules.enforced ==> Authorized(x, deployments, grants, rules.required(x.package), t))
    {
    }
  }

  /** How far a run got before it stopped. */
  datatype Progress = Preparing | Ensured | IdentityBound | CredentialRotated | Written | Completed

  class World {
    const rules: Rules
    var now: int
    var credentials: seq<Credential>
    var environment: seq<string>
    var deployments: seq<Entry>
    var identities: seq<Identity>
    var grants: seq<Entry>
    ghost var rotatedAt: int

    constructor (rules: Rules, now: int, credentials: seq<Credential>, environment: seq<string>,
                 deployments: seq<Entry>, identities: seq<Identity>, grants: seq<Entry>)
      requires Rotatable(credentials) && Unrevoked(credentials, TokenIn(environment))
      requires OnePerPackage(deployments) && OnePerVersion(identities)
      ensures Inv() && this.rules == rules && this.now == now
      ensures this.credentials == credentials && this.environment == environment
      ensures this.deployments == deployments && this.identities == identities && this.grants == grants
    {
      this.rules, this.now, this.credentials, this.environment := rules, now, credentials, environment;
      this.deployments, this.identities, this.grants := deployments, identities, grants;
      rotatedAt := now;
    }

    ghost predicate Inv()
      reads this
    {
      && Rotatable(credentials)
      && Unrevoked(credentials, TokenIn(environment))
      && OnePerPackage(deployments)
      && OnePerVersion(identities)
    }

    ghost predicate Accepts(token: Token, t: int)
      reads this
    {
      Accepted(rules, identities, deployments, grants, credentials, token, t)
    }

    /** The states from which a fault-free run completes. */
    ghost predicate Completable(target: Target, policy: Policy)
      reads this
    {
      && policy.packageReady
      && Deployable(deployments, target.package, policy.deployable)
      && policy.charterActive
      && Grantable(grants, target, policy.admits)
      && Identifiable(identities, target, policy.identityAdmitted && GrantsLive(grants, target, now))
    }

    /** When the identity that the run finds or creates expires. */
    function Lifetime(target: Target): int
      reads this
    {
      Expiry(identities, target, now)
    }

    /** The identity that the run finds or creates is authorized at time `t`, once the run
        has posted what is missing. */
    ghost predicate Serves(target: Target, t: int)
      reads this
    {
      t < Lifetime(target) && Chartered(identities, target) && GrantsAt(grants, target, t, now)
    }

    /** Deployment, grants and identity of the target package, in that order; `k` is the
        identity. Whatever was accepted still is. */
    method Prepare(target: Target, policy: Policy, faults: bool) returns (ok: bool, ensured: bool, k: nat)
      requires Inv()
      modifies this`deployments, this`identities, this`grants
      ensures Inv()
      ensures ensured ==> HasActive(deployments, target.package, "")
      ensures ok ==> ensured && !Missing(grants, target)
      ensures ok ==> Found(identities, target.package) == Some(k) && identities[k].expires == old(Lifetime(target))
      ensures ok ==> forall t :: Authorized(identities[k], deployments, grants, target.capabilities, t) <==> old(Serves(target, t))
      ensures deployments == old(deployments) || deployments == old(deployments) + [Entry(target.package, "", true, Never)]
      ensures identities == old(identities)
              || identities == old(identities) + [Identity(target.package, target.version, true, now + 365 * 24 * 3600)]
      ensures identities != old(identities) ==> RestsOnGrant(grants, target, now)
      ensures old(grants) <= grants
      ensures forall i :: |old(grants)| <= i < |grants| ==> grants[i].package == target.package && grants[i].expires == At(now + 365 * 24 * 3600)
      ensures Completable(target, policy) <==> old(Completable(target, policy))
      ensures !faults ==> (ok <==> old(Completable(target, policy)))
    {
      hide HasActive, Missing, GrantsAt, Authorized, Expiry, Chartered, Inv, Completable, RestsOnGrant;
      ghost var i0 := identities;
      ok, ensured, k := Provide(target, policy, faults);
      if ok {
        FoundThen(i0, identities, target, now, k);
        forall t
          ensures Authorized(identities[k], deployments, grants, target.capabilities, t) <==> old(Serves(target, t))
        {
          AuthorizedThen(identities[k], deployments, grants, target, t, now);
        }
      }
    }

    /** The posts of the preparation. */
    method Provide(target: Target, policy: Policy, faults: bool) returns (ok: bool, ensured: bool, k: nat)
      requires Inv()
      modifies this`deployments, this`identities, this`grants
      ensures Inv()
      ensures ensured ==> HasActive(deployments, target.package, "")
      ensures ok ==> ensured && !Missing(grants, target) && Found(identities, target.package) == Some(k)
      ensures deployments == old(deployments) || deployments == old(deployments) + [Entry(target.package, "", true, Never)]
      ensures identities == old(identities)
              || (old(Found(identities, target.package)).None?
                  && identities == old(identities) + [Identity(target.package, target.version, true, now + YEAR)])
      ensures identities != old(identities) ==> RestsOnGrant(grants, target, now)
      ensures old(grants) <= grants
      ensures forall i :: |old(grants)| <= i < |grants| ==> grants[i].package == target.package && grants[i].expires == At(now + YEAR)
      ensures forall t :: GrantsAt(grants, target, t, now) <==> old(GrantsAt(grants, target, t, now))
      ensures Completable(target, policy) <==> old(Completable(target, policy))
      ensures !faults ==> (ok <==> old(Completable(target, policy)))
    {
      hide TokenIn, Rotatable, Unrevoked, HasActive, OnePerPackage, OnePerVersion;
      hide Deployable, Grantable, Missing, GrantsLive, Identifiable, GrantsAt, RestsOnGrant;
      ok, ensured, k := false, false, 0;
      var stop := Stops(faults);
      if stop || !policy.packageReady {
        return;
      }
      ok, deployments := EnsureDeployment(deployments, target.package, policy.deployable, faults);
      ensured := ok;
      if !ok || !policy.charterActive {
        return false, ensured, k;
      }
      ok, grants := EnsureGrants(grants, target, policy.admits, now, faults);
      if !ok { return; }
      if GrantsLive(grants, target, now) {
        GrantFound(grants, target, now);
      }
      ok, identities, k := EnsureIdentity(identities, target, policy.identityAdmitted && GrantsLive(grants, target, now), now, faults);
    }

    lemma GrantFound(grants: seq<Entry>, target: Target, now: int)
      requires !Missing(grants, target) && GrantsLive(grants, target, now)
      ensures RestsOnGrant(grants, target, now)
    {
      hide Missing;
    }

    lemma AuthorizedThen(x: Identity, deployments: seq<Entry>, grants: seq<Entry>, target: Target, t: int, now: int)
      requires x.package == target.package && HasActive(deployments, target.package, "") && !Missing(grants, target)
      ensures Authorized(x, deployments, grants, target.capabilities, t) <==> t < x.expires && x.chartered && GrantsAt(grants, target, t, now)
    {
      hide HasActive, LiveAt;
    }

    /** Credentials bound to the identity; the reply may be lost. */
    method Bind(id: nat, faults: bool) returns (ok: bool, bound: bool)
      requires Inv()
      modifies this`credentials
      ensures Inv()
      ensures credentials == if bound then Rebound(old(credentials), id) else old(credentials)
      ensures ok ==> bound
      ensures !faults ==> ok
    {
      hide TokenIn, OnePerPackage, OnePerVersion, Rebound;
      bound := false;
      var stop := Stops(faults);
      if stop {
        return false, bound;
      }
      RebindKeeps(credentials, id, TokenIn(environment));
      RebindRotatable(credentials, id);
      credentials, bound := Rebound(credentials, id), true;
      stop := Stops(faults);
      ok := !stop;
    }

    lemma RebindRotatable(cs: seq<Credential>, id: nat)
      requires Rotatable(cs)
      ensures Rotatable(Rebound(cs, id))
    {
      RebindKeeps(cs, id, "");
      hide Issued, SomeLive, Newest;
    }

    /** `rotate`: the new token is issued; the reply that carries it may be lost. */
    method Rotate(id: nat, faults: bool) returns (ok: bool, issued: bool, token: Token)
      requires Inv() && BoundTo(credentials, id) && id < |identities|
      modifies this`credentials, this`rotatedAt
      ensures Inv() && BoundTo(credentials, id)
      ensures !issued ==> credentials == old(credentials) && rotatedAt == old(rotatedAt)
      ensures issued ==> rotatedAt == now && Unissued(old(credentials), token)
                         && credentials == Rotated(old(credentials), token, id, identities[id].expires, now)
      ensures ok ==> issued
      ensures !faults ==> ok
    {
      hide TokenIn, OnePerPackage, OnePerVersion, Rotated;
      token, issued := "", false;
      var stop := Stops(faults);
      if stop {
        return false, issued, token;
      }
      token, issued := FreshToken(credentials), true;
      RotationOverlaps(credentials, token, id, identities[id].expires, now, TokenIn(environment));
      RotationIssues(credentials, token, id, identities[id].expires, now);
      hide Rotatable, Pending, Unissued;
      credentials, rotatedAt := Rotated(credentials, token, id, identities[id].expires, now), now;
      PendingIsRotatable(credentials, |credentials| - 1);
      stop := Stops(faults);
      ok := !stop;
    }

    lemma PendingIsRotatable(cs: seq<Credential>, last: nat)
      requires Pending(cs, last)
      ensures Rotatable(cs)
    {
    }

    /** Replace the environment file by one with the newest token, then have the credential
        it was issued from revoked. */
    method WriteAndFinalize(last: nat, token: Token, id: nat, faults: bool) returns (written: bool, ok: bool)
      requires Inv() && Pending(credentials, last) && credentials[last].token == token && BoundTo(credentials, id)
      modifies this`credentials, this`environment
      ensures Inv() && BoundTo(credentials, id)
      ensures !written ==> credentials == old(credentials) && environment == old(environment)
      ensures written ==> TokenIn(environment) == token
      ensures forall t :: Holds(credentials, token, t) <==> old(Holds(credentials, token, t))
      ensures ok ==> written && !Unrevoked(credentials, old(credentials[credentials[last].parent].token))
      ensures !faults ==> ok
    {
      hide TokenIn, Finalized, OnePerPackage, OnePerVersion, Rotatable, BoundTo, Holds, Apart, SetsToken;
      EntryOnDisk();
      written, ok := false, false;
      var stop := Stops(faults);
      if stop { return; }
      var output;
      written, output := ReplaceToken(environment, token);
      if !written { return; }
      NewestUnrevoked(credentials, last);
      environment := output;
      stop := Stops(faults);
      if stop { return; }
      FinalizeKeepsNewest(credentials, last);
      FinalizeKeepsBound(credentials, last, id);
      FinalizeKeepsLast(credentials, last);
      credentials := Finalized(credentials);
      stop := Stops(faults);
      ok := !stop;
    }

    lemma NewestUnrevoked(cs: seq<Credential>, last: nat)
      requires Pending(cs, last)
      ensures Unrevoked(cs, cs[last].token)
    {
    }

    lemma FinalizeKeepsLast(cs: seq<Credential>, last: nat)
      requires Pending(cs, last)
      ensures 0 <= cs[last].parent < last && Unrevoked(Finalized(cs), cs[last].token)
    {
      assert !Finalized(cs)[last].revoked;
    }

    /** Some line of the environment is an entry: the token read from it is not empty. */
    lemma EntryOnDisk()
      requires Rotatable(credentials) && Unrevoked(credentials, TokenIn(environment))
      ensures exists i :: 0 <= i < |environment| && SetsToken(environment[i])
    {
      EntriesAre();
      EntryExists(environment);
    }

    /** Bind, rotate, replace the environment file, finalize; time passes between the calls.
        Until the overlap of the rotation ends, the token on disk is good for what it was
        before; once written, the new one is until its identity or its quarter ends. */
    method ReplaceCredential(id: nat, faults: bool) returns (progress: Progress)
      requires Inv() && id < |identities|
      modifies this`now, this`credentials, this`environment, this`rotatedAt
      ensures Inv() && now >= old(now)
      ensures progress != Preparing
      ensures progress in {Ensured, IdentityBound, CredentialRotated} ==> environment == old(environment)
      ensures if progress.Ensured? then credentials == old(credentials) else BoundTo(credentials, id)
      ensures progress.IdentityBound? ==>
                forall t :: Holds(credentials, TokenIn(environment), t) <==> old(Holds(credentials, TokenIn(environment), t))
      ensures progress in {CredentialRotated, Written, Completed} ==> rotatedAt >= old(now)
      ensures progress.CredentialRotated? ==>
                forall t :: t < rotatedAt + OVERLAP ==>
                  (Holds(credentials, TokenIn(environment), t) <==> old(Holds(credentials, TokenIn(environment), t)))
      ensures progress in {Written, Completed} ==>
                forall t :: Holds(credentials, TokenIn(environment), t) <==> t < identities[id].expires && t < rotatedAt + QUARTER
      ensures progress.Completed? ==> !Unrevoked(credentials, old(credentials[Newest(credentials)].token))
      ensures !faults ==> progress.Completed?
    {
      hide TokenIn, Holds, Rotatable, Issued, Unrevoked, OnePerPackage, OnePerVersion, BoundTo, Rebound, Rotated, Pending, Unissued;
      Wait();
      ghost var cs, disk := credentials, TokenIn(environment);
      BindFacts(cs, id, disk);
      var ok, reached := Bind(id, faults);
      if !ok {
        return if reached then IdentityBound else Ensured;
      }
      ghost var bound := credentials;
      Wait();
      var token;
      ok, reached, token := Rotate(id, faults);
      if reached {
        RotateFacts(bound, token, id, identities[id].expires, now, disk);
      }
      if !ok {
        return if reached then CredentialRotated else IdentityBound;
      }
      Wait();
      var written;
      written, ok := WriteAndFinalize(|credentials| - 1, token, id, faults);
      progress := if ok then Completed else if written then Written else CredentialRotated;
    }

    method Wait()
      modifies this`now
      ensures now >= old(now)
    {
      var waited: nat :| true;
      now := now + waited;
    }

    lemma BindFacts(cs: seq<Credential>, id: nat, disk: Token)
      requires Rotatable(cs)
      ensures var next := Rebound(cs, id);
              && Rotatable(next) && BoundTo(next, id)
              && next[Newest(next)].token == cs[Newest(cs)].token
              && (Unrevoked(cs, disk) ==> Unrevoked(next, disk))
              && forall t :: Holds(next, disk, t) <==> Holds(cs, disk, t)
    {
      RebindKeeps(cs, id, disk);
      RebindRotatable(cs, id);
      hide Issued, Holds, Unrevoked;
    }

    lemma RotateFacts(cs: seq<Credential>, token: Token, id: nat, lifetime: int, at: int, disk: Token)
      requires Rotatable(cs) && Unissued(cs, token) && Unrevoked(cs, disk)
      ensures var next := Rotated(cs, token, id, lifetime, at);
              && Pending(next, |cs|) && |next| == |cs| + 1 && next[|cs|].token == token
              && next[next[|cs|].parent].token == cs[Newest(cs)].token
              && (forall t :: t < at + OVERLAP ==> (Holds(next, disk, t) <==> Holds(cs, disk, t)))
              && forall t :: Holds(next, token, t) <==> t < lifetime && t < at + QUARTER
    {
      RotationOverlaps(cs, token, id, lifetime, at, disk);
      RotationIssues(cs, token, id, lifetime, at);
      assert disk != token;
      hide Issued, Holds, Unissued, Rotated, Pending;
    }

    /** Deactivate the other packages' deployments, then their grants. */
    method RevokeSuperseded(knownDeployments: nat, knownGrants: nat, target: Target, policy: Policy, faults: bool) returns (ok: bool)
      requires Inv() && knownDeployments <= |deployments| && knownGrants <= |grants|
      requires forall i :: knownDeployments <= i < |deployments| ==> deployments[i].package == target.package
      requires forall i :: knownGrants <= i < |grants| ==> grants[i].package == target.package
      modifies this`deployments, this`grants
      ensures Inv()
      ensures HasActive(deployments, target.package, "") == old(HasActive(deployments, target.package, ""))
      ensures Missing(grants, target) == old(Missing(grants, target))
      ensures forall c, t :: LiveAt(grants, target.package, c, t) <==> old(LiveAt(grants, target.package, c, t))
      ensures forall i :: 0 <= i < |grants| && grants[i].active ==> grants[i] in old(grants)
      ensures Completable(target, policy) <==> old(Completable(target, policy))
      ensures ok ==> OnlyActive(deployments, target.package) && OnlyActive(grants, target.package)
      ensures !faults ==> ok
    {
      hide TokenIn, Rotatable, Unrevoked, HasActive, LiveAt, OnePerPackage, OnePerVersion;
      hide Deployable, Grantable, Missing, GrantsLive, Identifiable, OnlyActive;
      ghost var deployed, granted := deployments, grants;
      ok, deployments := RevokeOthers(deployments, knownDeployments, target.package, faults);
      RevocationKeeps(deployed, deployments, target.package, "");
      RevocationKeepsDeployable(deployed, deployments, target.package, policy.deployable);
      if !ok { return; }
      ok, grants := RevokeOthers(grants, knownGrants, target.package, faults);
      RevocationKeepsGrants(granted, grants, target, policy.admits, now);
    }

    /** The control plane's view of identity `k` at time `t`. */
    ghost predicate Cleared(k: nat, t: int)
      requires k < |identities|
      reads this
    {
      rules.enforced ==> Authorized(identities[k], deployments, grants, rules.required(identities[k].package), t)
    }

    /** The part of a run that follows its preparation. */
    method Finish(k: nat, knownDeployments: nat, knownGrants: nat, target: Target, policy: Policy, faults: bool) returns (progress: Progress)
      requires Inv() && knownDeployments <= |deployments| && knownGrants <= |grants|
      requires forall i :: knownDeployments <= i < |deployments| ==> deployments[i].package == target.package
      requires forall i :: knownGrants <= i < |grants| ==> grants[i].package == target.package
      requires Found(identities, target.package) == Some(k)
      modifies this`now, this`credentials, this`environment, this`rotatedAt, this`deployments, this`grants
      ensures Inv() && now >= old(now)
      ensures progress != Preparing && HasActive(deployments, target.package, "") == old(HasActive(deployments, target.package, ""))
      ensures progress in {CredentialRotated, Written, Completed} ==> rotatedAt >= old(now)
      ensures progress in {Ensured, IdentityBound, CredentialRotated} ==> environment == old(environment)
      ensures progress.Ensured? ==> credentials == old(credentials) && deployments == old(deployments) && grants == old(grants)
      ensures progress in {IdentityBound, CredentialRotated} ==>
                forall t :: (progress.CredentialRotated? ==> t < rotatedAt + OVERLAP) ==>
                  (Accepts(TokenIn(environment), t) <==> old(Holds(credentials, TokenIn(environment), t) && Cleared(k, t)))
      ensures progress in {Written, Completed} ==>
                forall t :: Accepts(TokenIn(environment), t)
                            <==> t < identities[k].expires && t < rotatedAt + QUARTER && old(Cleared(k, t))
      ensures forall i :: 0 <= i < |grants| && grants[i].active ==> grants[i] in old(grants)
      ensures progress.Completed? ==> OnlyActive(deployments, target.package) && OnlyActive(grants, target.package)
      ensures progress.Completed? ==>
                Missing(grants, target) == old(Missing(grants, target))
                && !Unrevoked(credentials, old(credentials[Newest(credentials)].token))
      ensures Completable(target, policy) <==> old(Completable(target, policy))
      ensures !faults ==> progress.Completed?
    {
      hide TokenIn, Rotatable, Unrevoked, HasActive, LiveAt, Holds, Accepted, Authorized, BoundTo, OnePerPackage, OnePerVersion;
      hide Deployable, Grantable, Missing, GrantsLive, OnlyActive;
      progress := ReplaceCredential(k, faults);
      if progress != Ensured {
        BoundAccepts(k);
      }
      if progress != Completed {
        return;
      }
      label Replaced:
      var ok := RevokeSuperseded(knownDeployments, knownGrants, target, policy, faults);
      forall t
        ensures Cleared(k, t) <==> old@Replaced(Cleared(k, t))
      {
        AuthorizedSame(identities[k], old@Replaced(deployments), old@Replaced(grants), deployments, grants,
                       rules.required(identities[k].package), t);
      }
      BoundAccepts(k);
      progress := if ok then Completed else Written;
    }

    lemma BoundAccepts(k: nat)
      requires BoundTo(credentials, k) && k < |identities|
      ensures forall t :: Accepts(TokenIn(environment), t) <==> Holds(credentials, TokenIn(environment), t) && Cleared(k, t)
    {
      hide TokenIn, Holds, Accepted, Authorized, BoundTo;
      forall t
        ensures Accepts(TokenIn(environment), t) <==> Holds(credentials, TokenIn(environment), t) && Cleared(k, t)
      {
        AcceptedBound(rules, identities, deployments, grants, credentials, k, TokenIn(environment), t);
      }
    }

    lemma AuthorizedSame(x: Identity, d0: seq<Entry>, g0: seq<Entry>, d1: seq<Entry>, g1: seq<Entry>, capabilities: seq<string>, t: int)
      requires HasActive(d1, x.package, "") == HasActive(d0, x.package, "")
      requires forall c, t :: LiveAt(g1, x.package, c, t) <==> LiveAt(g0, x.package, c, t)
      ensures Authorized(x, d1, g1, capabilities, t) <==> Authorized(x, d0, g0, capabilities, t)
    {
      hide LiveAt, HasActive;
    }

    /** One run. Whatever stops it, the token on disk is not revoked, and once the deployment
        was ensured one stays active. Acceptance: before the binding nothing is lost; after
        it, until the overlap of the rotation ends, the token on disk is accepted when its
        credential was and, under enforcement, when the identity found or created serves;
        once written, the new token is accepted exactly while that identity and a quarter
        last and, under enforcement, while the identity serves. The run keeps its target
        completable or not as it was; without faults it completes exactly when it is. A
        completed run leaves every required grant, nothing active of other packages, and
        has revoked the newest token it found. */
    method Run(target: Target, policy: Policy, faults: bool) returns (progress: Progress)
      requires Inv() && target.capabilities == rules.required(target.package)
      modifies this
      ensures Inv() && now >= old(now)
      ensures progress != Preparing ==> HasActive(deployments, target.package, "")
      ensures progress in {CredentialRotated, Written, Completed} ==> rotatedAt >= old(now)
      ensures progress in {Preparing, Ensured, IdentityBound, CredentialRotated} ==> environment == old(environment)
      ensures progress in {Preparing, Ensured} ==>
                forall t :: old(Accepts(TokenIn(environment), t)) ==> Accepts(TokenIn(environment), t)
      ensures progress in {IdentityBound, CredentialRotated} ==>
                forall t :: (progress.CredentialRotated? ==> t < rotatedAt + OVERLAP) ==>
                  (Accepts(TokenIn(environment), t)
                   <==> old(Holds(credentials, TokenIn(environment), t)) && (rules.enforced ==> old(Serves(target, t))))
      ensures progress in {Written, Completed} ==>
                forall t :: Accepts(TokenIn(environment), t)
                            <==> t < old(Lifetime(target)) && t < rotatedAt + QUARTER && (rules.enforced ==> old(Serves(target, t)))
      ensures forall t :: t < old(now) + OVERLAP && old(Serves(target, t)) && old(Accepts(TokenIn(environment), t)) ==>
                Accepts(TokenIn(environment), t)
      ensures forall t :: t < old(now) + OVERLAP && old(Healthy(t)) ==> Healthy(t)
      ensures progress.Completed? ==> OnlyActive(deployments, target.package) && OnlyActive(grants, target.package)
      ensures progress.Completed? ==> !Missing(grants, target) && !Unrevoked(credentials, old(credentials[Newest(credentials)].token))
      ensures Completable(target, policy) <==> old(Completable(target, policy))
      ensures !faults ==> (progress.Completed? <==> old(Completable(target, policy)))
    {
      hide TokenIn, Rotatable, Unrevoked, HasActive, LiveAt, Holds, Accepted, Authorized, OnePerPackage, OnePerVersion;
      hide Deployable, Grantable, Missing, GrantsLive, GrantsAt, Identifiable, OnlyActive;
      var knownDeployments, knownGrants := |deployments|, |grants|;
      var ok, ensured, k := Prepare(target, policy, faults);
      NothingLost(old(identities), old(deployments), old(grants), credentials, TokenIn(environment));
      AcceptedHolds(old(identities), old(deployments), old(grants), credentials, TokenIn(environment));
      if !ok {
        return if ensured then Ensured else Preparing;
      }
      progress := Finish(k, knownDeployments, knownGrants, target, policy, faults);
    }

    lemma NothingLost(i0: seq<Identity>, d0: seq<Entry>, g0: seq<Entry>, cs: seq<Credential>, disk: Token)
      requires i0 <= identities && d0 <= deployments && g0 <= grants && cs == credentials
      ensures forall t :: Accepted(rules, i0, d0, g0, cs, disk, t) ==> Accepts(disk, t)
    {
      forall t | Accepted(rules, i0, d0, g0, cs, disk, t)
        ensures Accepts(disk, t)
      {
        AcceptedGrows(rules, i0, d0, g0, identities, deployments, grants, cs, disk, t);
      }
    }

    lemma AcceptedHolds(i0: seq<Identity>, d0: seq<Entry>, g0: seq<Entry>, cs: seq<Credential>, disk: Token)
      ensures forall t :: Accepted(rules, i0, d0, g0, cs, disk, t) ==> Holds(cs, disk, t)
    {
    }

    /** Every identity of the agent, and every active grant, is good at time `t`. */
    ghost predicate Healthy(t: int)
      reads this
    {
      && (forall i :: 0 <= i < |identities| ==> t < identities[i].expires && identities[i].chartered)
      && (forall i :: 0 <= i < |grants| && grants[i].active ==> Before(t, grants[i].expires))
    }

    lemma HealthyServes(target: Target, t: int)
      requires Healthy(t) && t < now + YEAR
      ensures Serves(target, t)
    {
      forall k | 0 <= k < |target.capabilities|
        ensures WillBeLive(grants, target.package, target.capabilities[k], t, now)
      {
        var c := target.capabilities[k];
        if HasActive(grants, target.package, c) {
          var i :| 0 <= i < |grants| && grants[i].package == target.package && grants[i].capability == c && grants[i].active;
          assert IsLive(grants[i], target.package, c, t);
        }
      }
    }

    /** Any number of runs towards any packages, each stopped anywhere: the token on disk
        is never revoked; and at every moment of one overlap from the start at which all
        identities and grants are good, it is accepted if the first one was, however many
        runs were stopped between rotation and writing. */
    method Runs(targets: seq<Target>, policies: seq<Policy>)
      requires Inv() && |policies| == |targets|
      requires forall k :: 0 <= k < |targets| ==> targets[k].capabilities == rules.required(targets[k].package)
      modifies this
      ensures Inv() && Unrevoked(credentials, TokenIn(environment))
      ensures forall t :: t < old(now) + OVERLAP && old(Healthy(t)) && old(Accepts(TokenIn(environment), t)) ==>
                Accepts(TokenIn(environment), t)
    {
      hide TokenIn, Rotatable, Unrevoked, Accepted, HasActive, OnePerPackage, OnePerVersion, GrantsAt;
      for k := 0 to |targets|
        invariant Inv() && now >= old(now)
        invariant forall t :: t < old(now) + OVERLAP && old(Healthy(t)) ==> Healthy(t)
        invariant forall t :: t < old(now) + OVERLAP && old(Healthy(t)) && old(Accepts(TokenIn(environment), t)) ==>
                    Accepts(TokenIn(environment), t)
      {
        Wait();
        forall t | Healthy(t) && t < now + YEAR
          ensures Serves(targets[k], t)
        {
          HealthyServes(targets[k], t);
        }
        var _ := Run(targets[k], policies[k], true);
      }
    }

    /** The family that locks the worker out: the identity found has expired. The run
        completes; the new token was never good, and the old one is revoked. */
    method FindExpiredIdentity(target: Target, policy: Policy) returns (progress: Progress)
      requires Inv() && target.capabilities == rules.required(target.package) && Completable(target, policy)
      requires Found(identities, target.package).Some? && Lifetime(target) <= now
      requires credentials[Newest(credentials)].token == TokenIn(environment)
      modifies this
      ensures progress.Completed?
      ensures forall t :: t >= old(now) ==> !Accepts(old(TokenIn(environment)), t) && !Accepts(TokenIn(environment), t)
    {
      hide TokenIn, Rotatable, Completable, OnePerPackage, OnePerVersion, Authorized;
      progress := Run(target, policy, false);
    }

    /** Under enforcement, of two identities of a package the older one is found: when its
        charter has been superseded, the binding alone shuts the worker out. */
    method FindStaleIdentity(target: Target, policy: Policy, faults: bool) returns (progress: Progress)
      requires Inv() && target.capabilities == rules.required(target.package) && rules.enforced
      requires var found := Found(identities, target.package); found.Some? && !identities[found.value].chartered
      modifies this
      ensures progress !in {Preparing, Ensured} ==>
                forall t :: (progress.CredentialRotated? ==> t < rotatedAt + OVERLAP) ==> !Accepts(TokenIn(environment), t)
    {
      hide TokenIn, Rotatable, OnePerPackage, OnePerVersion, Accepted;
      progress := Run(target, policy, faults);
    }

    /** Such a worker: its token is good before the run, and no token is after it. */
    static method LockedOut() returns (w: World, ghost before: bool, progress: Progress)
      ensures before && progress.Completed?
      ensures forall t :: t >= 200 ==> !w.Accepts("t0", t) && !w.Accepts(TokenIn(w.environment), t)
    {
      var target := Target("worker", "1.0.0", ["code"]);
      var credentials := [Credential("t0", -1, None, Never, Never, false)];
      var environment := [PREFIX + "t0"];
      assert IsEntry(environment[0]);
      TokenReadBack(environment, "t0");
      assert !credentials[0].revoked;
      var grant := Entry("worker", "code", true, At(YEAR));
      var deployment := Entry("worker", "", true, Never);
      var identity := Identity("worker", "1.0.0", true, 100);
      w := new World(Rules(_ => ["code"], false), 200, credentials, environment, [deployment], [identity], [grant]);
      before := w.Accepts("t0", 200);
      assert Current(w.credentials[0], 200);
      var policy := Policy(true, true, true, _ => true, true);
      assert w.deployments[0] == deployment && w.grants[0] == grant && w.identities[0] == identity;
      assert Found(w.identities, "worker").Some?;
      progress := w.FindExpiredIdentity(target, policy);
    }

    lemma EntryExists(lines: seq<string>)
      requires TokenIn(lines) != ""
      ensures exists i :: 0 <= i < |lines| && IsEntry(lines[i])
    {
      if !IsEntry(lines[|lines| - 1]) {
        EntryExists(lines[..|lines| - 1]);
        var i :| 0 <= i < |lines| - 1 && IsEntry(lines[..|lines| - 1][i]);
        assert IsEntry(lines[i]);
      }
    }
  }
}
