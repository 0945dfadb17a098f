/** People with a profile on both platforms. A Telegram profile names a VK profile and both carry the
    same Telegram handle; the link counts only when exactly one Telegram profile makes that claim. */
module LinkedIdentity {
  import opened Options

  datatype Platform = Telegram | Vk

  type Identity = (Platform, int)

  datatype Profile = Profile(
    platform: Platform,
    id: int,
    handle: Option<string>,
    linkedVk: Option<int>,
    updatedAt: int,
    needsPass: Option<bool>)
  {
    function Key(): Identity { (platform, id) }
  }

  type Users = map<Identity, Profile>

  predicate Keyed(rows: Users)
  {
    forall k :: k in rows ==> rows[k].Key() == k
  }

  // The Telegram users who claim a VK profile under a handle.
  function Owners(rows: Users, vk: int, handle: string): (owners: set<int>)
    ensures forall t :: t in owners <==>
              && (Telegram, t) in rows
              && rows[(Telegram, t)].linkedVk == Some(vk) && rows[(Telegram, t)].handle == Some(handle)
  {
    set k | k in rows && k.0.Telegram? && rows[k].linkedVk == Some(vk) && rows[k].handle == Some(handle) :: k.1
  }

  // The element of a set of one.
  function Only(s: set<int>): (only: Option<int>)
    ensures only.Some? ==> s == {only.value}
    ensures only.None? ==> forall x :: s != {x}
  {
    if exists x :: x in s && s == {x} then
      var x :| x in s && s == {x};
      Some(x)
    else
      assert forall x :: s == {x} ==> x in s;
      None
  }

  function FindLinked(rows: Users, user: Profile): Option<Profile>
    requires Keyed(rows)
  {
    if user.handle.None? then None
    else if user.platform.Telegram? then
      if user.linkedVk.None? || Owners(rows, user.linkedVk.value, user.handle.value) != {user.id} then None
      else if (Vk, user.linkedVk.value) !in rows || rows[(Vk, user.linkedVk.value)].handle != user.handle then None
      else Some(rows[(Vk, user.linkedVk.value)])
    else
      var owner := Only(Owners(rows, user.id, user.handle.value));
      if owner.None? then None else Some(rows[(Telegram, owner.value)])
  }

  predicate Stored(rows: Users, user: Profile)
  {
    user.Key() in rows && rows[user.Key()] == user
  }

  /** Links are mutual: one stored profile finds another exactly when it is found by it. */
  lemma LinksAreMutual(rows: Users, a: Profile, b: Profile)
    requires Keyed(rows) && Stored(rows, a) && Stored(rows, b)
    ensures FindLinked(rows, a) == Some(b) <==> FindLinked(rows, b) == Some(a)
  {
    if FindLinked(rows, a) == Some(b) {
      MutualOneWay(rows, a, b);
    }
    if FindLinked(rows, b) == Some(a) {
      MutualOneWay(rows, b, a);
    }
  }

  lemma MutualOneWay(rows: Users, a: Profile, b: Profile)
    requires Keyed(rows) && Stored(rows, a) && FindLinked(rows, a) == Some(b)
    ensures Stored(rows, b) && a.platform != b.platform && FindLinked(rows, b) == Some(a)
  {
    if a.platform.Telegram? {
      var owners := Owners(rows, b.id, b.handle.value);
      assert owners == {a.id};
      assert Only(owners) == Some(a.id);
    } else {
      assert b.id in Owners(rows, a.id, a.handle.value);
      assert Owners(rows, b.linkedVk.value, b.handle.value) == {b.id};
    }
  }

  // The profiles of one person.
  function Person(rows: Users, user: Profile): set<Profile>
    requires Keyed(rows)
  {
    var linked := FindLinked(rows, user);
    if linked.None? then {user} else {user, linked.value}
  }

  /** People are classes of one or two profiles: everyone is in their own, and two people with a profile
      in common are the same person. */
  lemma PeopleAreClasses(rows: Users, a: Profile, b: Profile, shared: Profile)
    requires Keyed(rows) && Stored(rows, a) && Stored(rows, b)
    requires shared in Person(rows, a) && shared in Person(rows, b)
    ensures a in Person(rows, a) && |Person(rows, a)| <= 2
    ensures Person(rows, a) == Person(rows, b)
  {
    if shared != a {
      MutualOneWay(rows, a, shared);
    }
    if shared != b {
      MutualOneWay(rows, b, shared);
    }
  }

  // ----- Pass preferences of everyone in an event, in one pass -----

  // Ties go to VK, whose platform name is the greater.
  function Latest(a: Profile, b: Profile): Profile
  {
    if a.updatedAt < b.updatedAt
       || (a.updatedAt == b.updatedAt && (a.platform.Telegram? || (b.platform.Vk? && a.id < b.id)))
    then b else a
  }

  // What the person's most recently changed profile says.
  function PersonsAnswer(rows: Users, user: Profile): Option<bool>
    requires Keyed(rows)
  {
    var linked := FindLinked(rows, user);
    if linked.None? then user.needsPass else Latest(user, linked.value).needsPass
  }

  predicate DistinctKeys(profiles: seq<Profile>)
  {
    forall i, j :: 0 <= i < j < |profiles| ==> profiles[i].Key() != profiles[j].Key()
  }

  function Index(profiles: seq<Profile>): (rows: Users)
    ensures Keyed(rows)
    ensures forall k :: k in rows ==> rows[k] in profiles
    ensures forall p :: p in profiles ==> p.Key() in rows
  {
    if profiles == [] then map[]
    else
      assert profiles == profiles[..|profiles|-1] + [profiles[|profiles|-1]];
      Index(profiles[..|profiles|-1])[profiles[|profiles|-1].Key() := profiles[|profiles|-1]]
  }

  lemma IndexStores(profiles: seq<Profile>, i: nat)
    requires DistinctKeys(profiles) && i < |profiles|
    ensures Stored(Index(profiles), profiles[i])
  {
    var p := Index(profiles)[profiles[i].Key()];
    assert p in profiles;
    var j :| 0 <= j < |profiles| && profiles[j] == p;
  }

  lemma IndexNext(profiles: seq<Profile>, i: nat)
    requires i < |profiles|
    ensures Index(profiles[..i+1]) == Index(profiles[..i])[profiles[i].Key() := profiles[i]]
  {
    assert profiles[..i+1][..i] == profiles[..i];
  }

  // The pass does not consider empty handles.
  function BatchLinked(rows: Users, user: Profile): Option<Profile>
    requires Keyed(rows)
  {
    if user.handle == Some("") then None else FindLinked(rows, user)
  }

  function BatchAnswer(rows: Users, user: Profile): Option<bool>
    requires Keyed(rows)
  {
    var linked := BatchLinked(rows, user);
    if linked.None? then user.needsPass else Latest(user, linked.value).needsPass
  }

  type Claims = map<(int, string), seq<Profile>>

  // A list of the Telegram users with these ids, each once.
  ghost predicate Lists(list: seq<Profile>, rows: Users, ids: set<int>)
  {
    && (forall i, j :: 0 <= i < j < |list| ==> list[i].id != list[j].id)
    && (forall i :: 0 <= i < |list| ==> list[i].platform.Telegram? && Stored(rows, list[i]))
    && ids == set i | 0 <= i < |list| :: list[i].id
  }

  // The claims made by the Telegram profiles of a table.
  ghost predicate AreClaims(owners: Claims, rows: Users)
  {
    && (forall c :: c in owners <==> c.1 != "" && Owners(rows, c.0, c.1) != {})
    && (forall c :: c in owners ==> Lists(owners[c], rows, Owners(rows, c.0, c.1)))
  }

  predicate Claiming(p: Profile)
  {
    p.platform.Telegram? && p.linkedVk.Some? && p.handle.Some? && p.handle.value != ""
  }

  method CollectClaims(profiles: seq<Profile>) returns (owners: Claims)
    requires DistinctKeys(profiles)
    ensures AreClaims(owners, Index(profiles))
  {
    owners := map[];
    for i := 0 to |profiles|
      invariant AreClaims(owners, Index(profiles[..i]))
    {
      IndexNext(profiles, i);
      var p := profiles[i];
      ghost var rows, more := Index(profiles[..i]), Index(profiles[..i+1]);
      assert p.Key() !in rows;
      if Claiming(p) {
        AddClaim(owners, rows, p);
        owners := WithClaim(owners, p);
      } else {
        NoClaim(owners, rows, p);
      }
    }
    assert profiles[..|profiles|] == profiles;
  }

  lemma ListGrows(list: seq<Profile>, rows: Users, ids: set<int>, p: Profile)
    requires Lists(list, rows, ids) && p.Key() !in rows && p.platform.Telegram?
    ensures Lists(list + [p], rows[p.Key() := p], ids + {p.id})
  {
    var more := list + [p];
    forall i | 0 <= i < |list| ensures list[i].id != p.id && Stored(rows[p.Key() := p], list[i]) {
      assert Stored(rows, list[i]);
    }
    assert more[|list|].id == p.id;
    assert forall i :: 0 <= i < |list| ==> more[i].id == list[i].id;
  }

  lemma ListStays(list: seq<Profile>, rows: Users, ids: set<int>, p: Profile)
    requires Lists(list, rows, ids) && p.Key() !in rows
    ensures Lists(list, rows[p.Key() := p], ids)
  {
    forall i | 0 <= i < |list| ensures Stored(rows[p.Key() := p], list[i]) {
      assert Stored(rows, list[i]);
    }
  }

  lemma OwnersAfter(rows: Users, p: Profile, vk: int, handle: string)
    requires p.Key() !in rows
    ensures Owners(rows[p.Key() := p], vk, handle) ==
            Owners(rows, vk, handle) +
              if p.platform.Telegram? && p.linkedVk == Some(vk) && p.handle == Some(handle) then {p.id} else {}
  {
  }

  lemma NoClaim(owners: Claims, rows: Users, p: Profile)
    requires AreClaims(owners, rows) && p.Key() !in rows && !Claiming(p)
    ensures AreClaims(owners, rows[p.Key() := p])
  {
    forall c: (int, string) | c.1 != "" ensures Owners(rows[p.Key() := p], c.0, c.1) == Owners(rows, c.0, c.1) {
      OwnersAfter(rows, p, c.0, c.1);
    }
    forall c | c in owners ensures Lists(owners[c], rows[p.Key() := p], Owners(rows, c.0, c.1)) {
      ListStays(owners[c], rows, Owners(rows, c.0, c.1), p);
    }
  }

  function WithClaim(owners: Claims, p: Profile): Claims
    requires Claiming(p)
  {
    var c := (p.linkedVk.value, p.handle.value);
    owners[c := (if c in owners then owners[c] else []) + [p]]
  }

  lemma AddClaimAt(owners: Claims, rows: Users, p: Profile, d: (int, string))
    requires AreClaims(owners, rows) && p.Key() !in rows && Claiming(p)
    ensures d in WithClaim(owners, p) <==> d.1 != "" && Owners(rows[p.Key() := p], d.0, d.1) != {}
    ensures d in WithClaim(owners, p) ==>
              Lists(WithClaim(owners, p)[d], rows[p.Key() := p], Owners(rows[p.Key() := p], d.0, d.1))
  {
    var c := (p.linkedVk.value, p.handle.value);
    OwnersAfter(rows, p, d.0, d.1);
    if d == c {
      ListGrows(if c in owners then owners[c] else [], rows, Owners(rows, c.0, c.1), p);
      assert p.id in Owners(rows[p.Key() := p], d.0, d.1);
    } else if d in owners {
      ListStays(owners[d], rows, Owners(rows, d.0, d.1), p);
    }
  }

  lemma AddClaim(owners: Claims, rows: Users, p: Profile)
    requires AreClaims(owners, rows) && p.Key() !in rows && Claiming(p)
    ensures AreClaims(WithClaim(owners, p), rows[p.Key() := p])
  {
    var more := rows[p.Key() := p];
    var next := WithClaim(owners, p);
    forall d: (int, string)
      ensures d in next <==> d.1 != "" && Owners(more, d.0, d.1) != {}
      ensures d in next ==> Lists(next[d], more, Owners(more, d.0, d.1)) {
      AddClaimAt(owners, rows, p, d);
    }
  }

  // The claim a profile takes part in.
  function ClaimOf(p: Profile): Option<(int, string)>
  {
    if p.handle.None? || (p.platform.Telegram? && p.linkedVk.None?) then None
    else Some((if p.platform.Telegram? then p.linkedVk.value else p.id, p.handle.value))
  }

  ghost predicate LinkedBy(linked: map<Identity, Profile>, rows: Users, done: set<(int, string)>)
    requires Keyed(rows)
  {
    && linked.Keys <= rows.Keys
    && forall k :: k in rows ==>
         var other := BatchLinked(rows, rows[k]);
         && (k in linked <==> other.Some? && ClaimOf(rows[k]).value in done)
         && (k in linked ==> linked[k].needsPass == Latest(rows[k], other.value).needsPass)
  }

  // Whether a claim holds, and between whom.
  function Resolve(rows: Users, candidates: seq<Profile>, c: (int, string)): Option<(Profile, Profile)>
  {
    if |candidates| != 1 || (Vk, c.0) !in rows || rows[(Vk, c.0)].handle != Some(c.1) then None
    else Some((candidates[0], rows[(Vk, c.0)]))
  }

  lemma UnresolvedClaim(rows: Users, candidates: seq<Profile>, c: (int, string), p: Profile)
    requires Keyed(rows) && Stored(rows, p) && ClaimOf(p) == Some(c)
    requires Lists(candidates, rows, Owners(rows, c.0, c.1)) && Resolve(rows, candidates, c).None?
    ensures FindLinked(rows, p).None?
  {
    if |candidates| > 1 {
      assert candidates[0].id in Owners(rows, c.0, c.1) && candidates[1].id in Owners(rows, c.0, c.1);
    } else if |candidates| == 0 {
      assert Owners(rows, c.0, c.1) == {};
    }
  }

  lemma ResolvedClaim(rows: Users, candidates: seq<Profile>, c: (int, string), p: Profile)
    requires Keyed(rows) && Stored(rows, p) && c.1 != ""
    requires Lists(candidates, rows, Owners(rows, c.0, c.1)) && Resolve(rows, candidates, c).Some?
    ensures var pair := Resolve(rows, candidates, c).value;
            && pair.0.platform.Telegram? && pair.1.platform.Vk? && Stored(rows, pair.0) && Stored(rows, pair.1)
            && (p == pair.0 ==> ClaimOf(p) == Some(c) && BatchLinked(rows, p) == Some(pair.1))
            && (p == pair.1 ==> ClaimOf(p) == Some(c) && BatchLinked(rows, p) == Some(pair.0))
            && (p != pair.0 && p != pair.1 && ClaimOf(p) == Some(c) ==> BatchLinked(rows, p).None?)
  {
    var pair := Resolve(rows, candidates, c).value;
    assert Stored(rows, candidates[0]);
    assert Owners(rows, c.0, c.1) == {pair.0.id};
    assert pair.0.id in Owners(rows, c.0, c.1);
    MutualOneWay(rows, pair.0, pair.1);
  }

  // What one claim contributes.
  function Contribute(linked: map<Identity, Profile>, pair: Option<(Profile, Profile)>): map<Identity, Profile>
  {
    if pair.None? then linked
    else
      var latest := Latest(pair.value.0, pair.value.1);
      linked[pair.value.0.Key() := latest][pair.value.1.Key() := latest]
  }

  lemma ContributionIsRight(rows: Users, owners: Claims, c: (int, string), linked: map<Identity, Profile>,
                            done: set<(int, string)>)
    requires Keyed(rows) && AreClaims(owners, rows) && c in owners && c !in done && LinkedBy(linked, rows, done)
    ensures LinkedBy(Contribute(linked, Resolve(rows, owners[c], c)), rows, done + {c})
  {
    var pair := Resolve(rows, owners[c], c);
    var more := Contribute(linked, pair);
    forall k | k in rows
      ensures var other := BatchLinked(rows, rows[k]);
              && (k in more <==> other.Some? && ClaimOf(rows[k]).value in done + {c})
              && (k in more ==> more[k].needsPass == Latest(rows[k], other.value).needsPass) {
      if pair.Some? {
        ResolvedClaim(rows, owners[c], c, rows[k]);
      } else if ClaimOf(rows[k]) == Some(c) {
        UnresolvedClaim(rows, owners[c], c, rows[k]);
      }
    }
    if pair.Some? {
      var k := pair.value.1;
      ResolvedClaim(rows, owners[c], c, k);
    }
  }

  method ResolveClaims(rows: Users, owners: Claims) returns (linked: map<Identity, Profile>)
    requires Keyed(rows) && AreClaims(owners, rows)
    ensures LinkedBy(linked, rows, owners.Keys)
  {
    linked := map[];
    var left := owners.Keys;
    while left != {}
      invariant left <= owners.Keys && LinkedBy(linked, rows, owners.Keys - left)
      decreases left
    {
      var c :| c in left;
      ContributionIsRight(rows, owners, c, linked, owners.Keys - left);
      linked := Contribute(linked, Resolve(rows, owners[c], c));
      assert owners.Keys - left + {c} == owners.Keys - (left - {c});
      left := left - {c};
    }
  }

  lemma AllLinksClaimed(rows: Users, owners: Claims, p: Profile)
    requires Keyed(rows) && AreClaims(owners, rows) && Stored(rows, p) && BatchLinked(rows, p).Some?
    ensures ClaimOf(p).Some? && ClaimOf(p).value in owners
  {
    var other := FindLinked(rows, p).value;
    MutualOneWay(rows, p, other);
    var c := ClaimOf(p).value;
    assert (if p.platform.Telegram? then p else other).id in Owners(rows, c.0, c.1);
  }

  function Lookup(linked: map<Identity, Profile>, p: Profile): Profile
  {
    if p.Key() in linked then linked[p.Key()] else p
  }

  lemma LookupIsAnswer(rows: Users, owners: Claims, linked: map<Identity, Profile>, p: Profile)
    requires Keyed(rows) && AreClaims(owners, rows) && LinkedBy(linked, rows, owners.Keys) && Stored(rows, p)
    ensures Lookup(linked, p).needsPass == BatchAnswer(rows, p)
  {
    if BatchLinked(rows, p).Some? {
      AllLinksClaimed(rows, owners, p);
    }
  }

  method CollectAnswers(profiles: seq<Profile>, linked: map<Identity, Profile>, keys: seq<string>, active: set<string>)
    returns (answers: map<string, Option<bool>>)
    requires |keys| == |profiles| && forall i, j :: 0 <= i < j < |keys| ==> keys[i] != keys[j]
    ensures forall key :: key in answers <==> key in active && key in keys
    ensures forall i :: 0 <= i < |keys| && keys[i] in active ==>
              answers[keys[i]] == Lookup(linked, profiles[i]).needsPass
  {
    answers := map[];
    for i := 0 to |profiles|
      invariant forall key :: key in answers <==> key in active && key in keys[..i]
      invariant forall j :: 0 <= j < i && keys[j] in active ==>
                answers[keys[j]] == Lookup(linked, profiles[j]).needsPass
    {
      assert keys[..i+1] == keys[..i] + [keys[i]];
      if keys[i] in active {
        answers := answers[keys[i] := Lookup(linked, profiles[i]).needsPass];
      }
    }
    assert keys[..|keys|] == keys;
  }

  /** The batched form: whatever the order of the profiles, every active participant gets the answer of
      their person's latest profile, and nobody else gets one. `keys` are the participant keys of the
      profiles, derived from platform, user and event so that no two users share one. */
  method EventPassPreferences(profiles: seq<Profile>, keys: seq<string>, active: set<string>)
    returns (answers: map<string, Option<bool>>)
    requires DistinctKeys(profiles)
    requires |keys| == |profiles| && forall i, j :: 0 <= i < j < |keys| ==> keys[i] != keys[j]
    ensures forall key :: key in answers <==> key in active && key in keys
    ensures forall i :: 0 <= i < |keys| && keys[i] in active ==>
              answers[keys[i]] == BatchAnswer(Index(profiles), profiles[i])
  {
    var rows := Index(profiles);
    var owners := CollectClaims(profiles);
    var linked := ResolveClaims(rows, owners);
    answers := CollectAnswers(profiles, linked, keys, active);
    forall i | 0 <= i < |profiles| ensures Lookup(linked, profiles[i]).needsPass == BatchAnswer(rows, profiles[i]) {
      IndexStores(profiles, i);
      LookupIsAnswer(rows, owners, linked, profiles[i]);
    }
  }

  /** The batched form agrees with looking each user up, except for a profile linked through an empty
      handle whose partner is the later one and says something else. */
  lemma BatchAgreesExactly(rows: Users, user: Profile)
    requires Keyed(rows) && Stored(rows, user)
    ensures BatchAnswer(rows, user) == PersonsAnswer(rows, user) <==>
            !(user.handle == Some("") && FindLinked(rows, user).Some? &&
              Latest(user, FindLinked(rows, user).value).needsPass != user.needsPass)
  {
  }

  /** Both profiles of a person get the same answer. */
  lemma OnePersonOneAnswer(rows: Users, a: Profile, b: Profile)
    requires Keyed(rows) && Stored(rows, a) && b in Person(rows, a)
    ensures PersonsAnswer(rows, b) == PersonsAnswer(rows, a)
  {
    if b != a {
      MutualOneWay(rows, a, b);
    }
  }

  lemma OneWay(a: seq<Profile>, b: seq<Profile>, k: Identity)
    requires DistinctKeys(b) && (forall p :: p in a ==> p in b) && k in Index(a)
    ensures k in Index(b) && Index(b)[k] == Index(a)[k]
  {
    var p := Index(a)[k];
    assert p in b;
    var i :| 0 <= i < |b| && b[i] == p;
    IndexStores(b, i);
  }

  /** The order in which profiles are given does not matter. */
  lemma OrderDoesNotMatter(a: seq<Profile>, b: seq<Profile>)
    requires DistinctKeys(a) && DistinctKeys(b) && forall p :: p in a <==> p in b
    ensures Index(a) == Index(b)
  {
    forall k | k in Index(a) || k in Index(b) ensures k in Index(a) && k in Index(b) && Index(a)[k] == Index(b)[k] {
      if k in Index(a) {
        OneWay(a, b, k);
      } else {
        OneWay(b, a, k);
      }
    }
  }
}
