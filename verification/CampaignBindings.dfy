/** The admitted panel union of a native engine commit: every complete dataset binding of
    the matching campaigns, once each, in the order of their canonical encoding. */
module CampaignBindings {
  import opened Prelude
  import opened StringOrder

  /** A JSON object; each value is kept as its own canonical text. */
  type Object = map<string, string>

  const BINDING_KEYS: set<string> := {
    "dataset_build_id", "catalog_id", "lake_governance_snapshot_id", "producer_receipt_id",
    "dataset_key", "partition_digests", "evidence_class", "research_principal"
  }

  /** A campaign as far as it matters here; a missing specification has no commit and no
      dataset bindings. */
  datatype Campaign = Campaign(id: Option<string>, sourceCommit: Option<string>, items: seq<Object>)

  function Restrict(item: Object): Object {
    map key | key in item && key in BINDING_KEYS :: item[key]
  }

  /** A missing or empty campaign id selects every campaign of the commit. */
  predicate Matches(campaign: Campaign, commit: string, campaignId: Option<string>) {
    && campaign.sourceCommit == Some(commit)
    && (campaignId.None? || campaignId.value == "" || campaign.id == campaignId)
  }

  /** The bindings the result stands for: the eight fields of an item that has them all. */
  ghost predicate Offers(campaign: Campaign, binding: Object) {
    exists item :: item in campaign.items && Binds(item, binding)
  }

  ghost predicate Binds(item: Object, binding: Object) {
    && binding.Keys == {"dataset_build_id", "catalog_id", "lake_governance_snapshot_id", "producer_receipt_id",
                        "dataset_key", "partition_digests", "evidence_class", "research_principal"}
    && forall key :: key in binding ==> key in item && item[key] == binding[key]
  }

  /** Such a binding is what is left of the item. */
  lemma BindsIs(item: Object, binding: Object)
    ensures Binds(item, binding) <==> Restrict(item).Keys == BINDING_KEYS && binding == Restrict(item)
  {
    if Binds(item, binding) {
      assert forall key :: key in Restrict(item) <==> key in binding;
      assert binding == Restrict(item);
    }
  }

  ghost predicate Admitted(campaigns: seq<Campaign>, commit: string, campaignId: Option<string>, binding: Object) {
    exists c :: c in campaigns && Matches(c, commit, campaignId) && Offers(c, binding)
  }

  /** The canonical encoding identifies a binding. */
  ghost predicate Canonical(encode: Object -> string) {
    forall a, b :: encode(a) == encode(b) ==> a == b
  }

  function Encoded(encode: Object -> string, bindings: seq<Object>): seq<string> {
    seq(|bindings|, i requires 0 <= i < |bindings| => encode(bindings[i]))
  }

  /** The whole promise: exactly the admitted bindings, in strictly increasing order of
      their encodings, so each appears once. */
  ghost predicate Answers(campaigns: seq<Campaign>, commit: string, campaignId: Option<string>,
                          encode: Object -> string, bindings: seq<Object>)
  {
    && Increasing(Encoded(encode, bindings))
    && forall b :: b in bindings <==> Admitted(campaigns, commit, campaignId, b)
  }

  /** The first loop: the complete bindings of the matching campaigns, repeats included. */
  method Compatible(campaigns: seq<Campaign>, commit: string, campaignId: Option<string>) returns (compatible: seq<Object>)
    ensures forall b :: b in compatible <==> Admitted(campaigns, commit, campaignId, b)
  {
    compatible := [];
    for i := 0 to |campaigns|
      invariant forall b :: b in compatible <==> Admitted(campaigns[..i], commit, campaignId, b)
    {
      assert campaigns[..i + 1] == campaigns[..i] + [campaigns[i]];
      AdmittedSnoc(campaigns[..i], campaigns[i], commit, campaignId);
      if campaigns[i].sourceCommit != Some(commit) {
        continue;
      }
      if campaignId.Some? && campaignId.value != "" && campaigns[i].id != campaignId {
        continue;
      }
      var found := BindingsOf(campaigns[i]);
      compatible := compatible + found;
    }
    assert campaigns[..|campaigns|] == campaigns;
  }

  method BindingsOf(campaign: Campaign) returns (found: seq<Object>)
    ensures forall b :: b in found <==> Offers(campaign, b)
  {
    hide Offers, Restrict;
    found := [];
    var items := campaign.items;
    NoItems(campaign);
    for i := 0 to |items|
      invariant forall b :: b in found <==> Offers(campaign.(items := items[..i]), b)
    {
      assert items[..i + 1] == items[..i] + [items[i]];
      var binding := Restrict(items[i]);
      OneItem(campaign, i);
      if binding.Keys != BINDING_KEYS {
        continue;
      }
      ghost var before := found;
      found := found + [binding];
      assert forall b :: b in found <==> b in before || b == binding;
    }
    assert items[..|items|] == items;
  }

  lemma NoItems(campaign: Campaign)
    ensures forall b :: !Offers(campaign.(items := campaign.items[..0]), b)
  {
  }

  lemma OneItem(campaign: Campaign, i: nat)
    requires i < |campaign.items|
    ensures var items, own := campaign.items, Restrict(campaign.items[i]);
            forall b :: Offers(campaign.(items := items[..i + 1]), b) <==>
              Offers(campaign.(items := items[..i]), b) || (own.Keys == BINDING_KEYS && b == own)
  {
    var items, own := campaign.items, Restrict(campaign.items[i]);
    hide Binds, Restrict;
    forall b
      ensures Offers(campaign.(items := items[..i + 1]), b)
              <==> Offers(campaign.(items := items[..i]), b) || (own.Keys == BINDING_KEYS && b == own)
    {
      BindsIs(items[i], b);
      OfferedSnoc(campaign, items[..i], items[i], b);
      assert items[..i + 1] == items[..i] + [items[i]];
    }
  }

  lemma OfferedSnoc(campaign: Campaign, items: seq<Object>, item: Object, b: Object)
    ensures Offers(campaign.(items := items + [item]), b) <==> Offers(campaign.(items := items), b) || Binds(item, b)
  {
    hide Binds;
    assert item in items + [item];
    if Offers(campaign.(items := items), b) {
      var x :| x in items && Binds(x, b);
      assert x in items + [item];
    }
  }

  lemma AdmittedSnoc(campaigns: seq<Campaign>, last: Campaign, commit: string, campaignId: Option<string>)
    ensures forall b :: Admitted(campaigns + [last], commit, campaignId, b) <==>
              Admitted(campaigns, commit, campaignId, b) || (Matches(last, commit, campaignId) && Offers(last, b))
  {
    hide Offers, Matches;
    forall b | Admitted(campaigns, commit, campaignId, b)
      ensures Admitted(campaigns + [last], commit, campaignId, b)
    {
      var c :| c in campaigns && Matches(c, commit, campaignId) && Offers(c, b);
      assert c in campaigns + [last];
    }
    assert last in campaigns + [last];
  }

  /** What the dictionary of the second loop holds after some bindings. */
  ghost predicate Indexes(encode: Object -> string, bindings: seq<Object>, unique: map<string, Object>, keys: seq<string>) {
    && (forall k :: k in keys <==> k in unique)
    && (forall k :: k in unique ==> unique[k] in bindings && encode(unique[k]) == k)
    && (forall b :: b in bindings ==> encode(b) in unique)
  }

  /** The second loop: the first binding of each encoding, with the keys in order. */
  method Index(encode: Object -> string, bindings: seq<Object>) returns (unique: map<string, Object>, keys: seq<string>)
    ensures Indexes(encode, bindings, unique, keys)
  {
    unique, keys := map[], [];
    for i := 0 to |bindings|
      invariant Indexes(encode, bindings[..i], unique, keys)
    {
      assert bindings[..i + 1] == bindings[..i] + [bindings[i]];
      var identity := encode(bindings[i]);
      if identity !in unique {
        unique, keys := unique[identity := bindings[i]], keys + [identity];
      }
    }
    assert bindings[..|bindings|] == bindings;
  }

  /** `compatible_campaign_bindings`: an empty union is an error, never a result. */
  method CompatibleCampaignBindings(campaigns: seq<Campaign>, commit: string, campaignId: Option<string>,
                                    encode: Object -> string)
    returns (result: Option<seq<Object>>)
    requires Canonical(encode)
    ensures result.Some? ==> Answers(campaigns, commit, campaignId, encode, result.value)
    ensures result.None? <==> forall b :: !Admitted(campaigns, commit, campaignId, b)
  {
    hide Admitted;
    var compatible := Compatible(campaigns, commit, campaignId);
    var unique, keys := Index(encode, compatible);
    var sorted := Sorted(keys);
    SortedShape(keys);
    var bindings := seq(|sorted|, i requires 0 <= i < |sorted| && sorted[i] in unique => unique[sorted[i]]);
    assert Encoded(encode, bindings) == sorted;
    forall b
      ensures b in bindings <==> b in compatible
    {
      if b in compatible {
        assert encode(b) in sorted && unique[encode(b)] == b;
        var i :| 0 <= i < |sorted| && sorted[i] == encode(b);
        assert bindings[i] == b;
      }
    }
    assert |compatible| > 0 ==> compatible[0] in bindings;
    if bindings == [] {
      return None;
    }
    assert bindings[0] in compatible;
    result := Some(bindings);
  }

  /** The promise leaves no choice. */
  lemma AnswerUnique(campaigns: seq<Campaign>, others: seq<Campaign>, commit: string, campaignId: Option<string>,
                     encode: Object -> string, r1: seq<Object>, r2: seq<Object>)
    requires Canonical(encode)
    requires Answers(campaigns, commit, campaignId, encode, r1) && Answers(others, commit, campaignId, encode, r2)
    requires forall b :: Admitted(campaigns, commit, campaignId, b) <==> Admitted(others, commit, campaignId, b)
    ensures r1 == r2
  {
    hide Admitted;
    var e1, e2 := Encoded(encode, r1), Encoded(encode, r2);
    EncodedElements(encode, r1, r2);
    EncodedElements(encode, r2, r1);
    IncreasingUnique(e1, e2);
    forall i | 0 <= i < |r1|
      ensures r1[i] == r2[i]
    {
      assert e1[i] == e2[i];
    }
  }

  lemma EncodedElements(encode: Object -> string, bindings: seq<Object>, others: seq<Object>)
    requires forall b :: b in bindings ==> b in others
    ensures |Encoded(encode, bindings)| == |bindings|
    ensures forall k :: k in Encoded(encode, bindings) ==> k in Encoded(encode, others)
  {
    var e1, e2 := Encoded(encode, bindings), Encoded(encode, others);
    forall k | k in e1
      ensures k in e2
    {
      var i :| 0 <= i < |e1| && e1[i] == k;
      assert bindings[i] in others;
      var j :| 0 <= j < |others| && others[j] == bindings[i];
      assert e2[j] == k;
    }
  }

  /** The same campaigns in another order, each with its bindings in another order. */
  ghost predicate Rearranged(campaigns: seq<Campaign>, others: seq<Campaign>, order: seq<nat>) {
    && |order| == |campaigns| == |others|
    && (forall i :: 0 <= i < |order| ==> order[i] < |campaigns|)
    && (forall j :: 0 <= j < |campaigns| ==> j in order)
    && (forall i :: 0 <= i < |order| ==> SameCampaign(others[i], campaigns[order[i]]))
  }

  ghost predicate SameCampaign(a: Campaign, b: Campaign) {
    a.id == b.id && a.sourceCommit == b.sourceCommit && multiset(a.items) == multiset(b.items)
  }

  lemma SameOffers(a: Campaign, b: Campaign, binding: Object)
    requires SameCampaign(a, b) && Offers(a, binding)
    ensures Offers(b, binding)
  {
    var item :| item in a.items && Binds(item, binding);
    assert item in multiset(a.items);
    assert item in b.items;
  }

  /** Order independence: no rearrangement of campaigns, or of bindings within them,
      changes the list. */
  lemma OrderIndependent(campaigns: seq<Campaign>, others: seq<Campaign>, order: seq<nat>, commit: string,
                         campaignId: Option<string>, encode: Object -> string, r1: seq<Object>, r2: seq<Object>)
    requires Canonical(encode) && Rearranged(campaigns, others, order)
    requires Answers(campaigns, commit, campaignId, encode, r1) && Answers(others, commit, campaignId, encode, r2)
    ensures r1 == r2
  {
    forall b
      ensures Admitted(campaigns, commit, campaignId, b) <==> Admitted(others, commit, campaignId, b)
    {
      SameAdmitted(campaigns, others, order, commit, campaignId, b);
    }
    AnswerUnique(campaigns, others, commit, campaignId, encode, r1, r2);
  }

  lemma SameAdmitted(campaigns: seq<Campaign>, others: seq<Campaign>, order: seq<nat>, commit: string,
                     campaignId: Option<string>, b: Object)
    requires Rearranged(campaigns, others, order)
    ensures Admitted(campaigns, commit, campaignId, b) <==> Admitted(others, commit, campaignId, b)
  {
    hide Offers, Restrict;
    if Admitted(campaigns, commit, campaignId, b) {
      var c :| c in campaigns && Matches(c, commit, campaignId) && Offers(c, b);
      var j :| 0 <= j < |campaigns| && campaigns[j] == c;
      assert j in order;
      var i :| 0 <= i < |order| && order[i] == j;
      SameOffers(c, others[i], b);
      assert others[i] in others;
    }
    if Admitted(others, commit, campaignId, b) {
      var c :| c in others && Matches(c, commit, campaignId) && Offers(c, b);
      var i :| 0 <= i < |others| && others[i] == c;
      SameOffers(c, campaigns[order[i]], b);
      assert campaigns[order[i]] in campaigns;
    }
  }
}
