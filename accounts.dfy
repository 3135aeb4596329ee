/** The account records kept by the simulated backend and the list operations on them. */
module Accounts {
  import opened Wrappers

  /** An account record. `token` is `None` when the record has no `token` key: stored
      records are created without one, and the authenticate response carries one. */
  datatype Account = Account(id: int, facebookId: string, name: string, extraInfo: string, token: Option<string>)

  /** A request body merged into a record: each `None` is a key the body does not have. */
  datatype Patch = Patch(id: Option<int>, facebookId: Option<string>, name: Option<string>,
                         extraInfo: Option<string>, token: Option<string>)

  const NoChange := Patch(None, None, None, None, None)

  /** The text of the `TypeError` JavaScript throws when a property is read from, or assigned
      into, `undefined` or `null`: `Object.assign(undefined, …)` in the backend and
      `this.accountValue.id` with nobody logged in in the session service. */
  const TypeError := "TypeError"

  /** `Object.assign(a, p)`: the keys present in `p` overwrite those of `a`. */
  function Assign(a: Account, p: Patch): (r: Account)
    ensures p.id.Some? ==> r.id == p.id.value
    ensures p.facebookId.Some? ==> r.facebookId == p.facebookId.value
    ensures p.name.Some? ==> r.name == p.name.value
    ensures p.extraInfo.Some? ==> r.extraInfo == p.extraInfo.value
    ensures p.token.Some? ==> r.token == p.token
  {
    Account(p.id.GetOr(a.id), p.facebookId.GetOr(a.facebookId), p.name.GetOr(a.name),
            p.extraInfo.GetOr(a.extraInfo), if p.token.Some? then p.token else a.token)
  }

  /** Assigning the same body twice changes nothing more than assigning it once. */
  lemma AssignIdempotent(a: Account, p: Patch)
    ensures Assign(Assign(a, p), p) == Assign(a, p)
  {
  }

  /** A body without an `id` key leaves the id alone; an empty body leaves the record alone. */
  lemma AssignKeepsAbsentKeys(a: Account, p: Patch)
    ensures p.id.None? ==> Assign(a, p).id == a.id
    ensures p.facebookId.None? ==> Assign(a, p).facebookId == a.facebookId
    ensures p.name.None? ==> Assign(a, p).name == a.name
    ensures p.extraInfo.None? ==> Assign(a, p).extraInfo == a.extraInfo
    ensures p.token.None? ==> Assign(a, p).token == a.token
    ensures Assign(a, NoChange) == a
  {
  }

  /** Merging `{extraInfo: "y"}` into `{id: 1, name: "A", extraInfo: "x"}` keeps the id and
      the name and replaces the extra info. */
  lemma AssignMergeExample()
    ensures Assign(Account(1, "fb1", "A", "x", None), NoChange.(extraInfo := Some("y")))
            == Account(1, "fb1", "A", "y", None)
  {
  }

  /** What `Array.prototype.find` looks a record up by. */
  datatype Key = ById(id: int) | ByFacebookId(facebookId: string)

  predicate Matches(a: Account, k: Key) {
    match k
    case ById(id) => a.id == id
    case ByFacebookId(fid) => a.facebookId == fid
  }

  /** The index of the first record matching `k`, as `find` returns the first match. */
  function Find(s: seq<Account>, k: Key): (r: Option<nat>)
    ensures r.Some? ==> r.value < |s| && Matches(s[r.value], k)
    ensures r.Some? ==> forall j :: 0 <= j < r.value ==> !Matches(s[j], k)
    ensures r.None? <==> forall j :: 0 <= j < |s| ==> !Matches(s[j], k)
  {
    if s == [] then None
    else if Matches(s[0], k) then Some(0)
    else
      match Find(s[1..], k)
      case None => None
      case Some(j) => Some(j + 1)
  }

  /** Appending a record never changes an earlier hit, and a miss becomes a hit on the new
      record exactly when it matches. */
  lemma {:induction false} FindAppend(s: seq<Account>, x: Account, k: Key)
    ensures Find(s, k).Some? ==> Find(s + [x], k) == Find(s, k)
    ensures Find(s, k).None? ==> Find(s + [x], k) == if Matches(x, k) then Some(|s|) else None
  {
    if s != [] {
      assert (s + [x])[0] == s[0];
      assert (s + [x])[1..] == s[1..] + [x];
      FindAppend(s[1..], x, k);
    }
  }

  /** No two records share an id. */
  ghost predicate UniqueIds(s: seq<Account>) {
    forall i, j :: 0 <= i < j < |s| ==> s[i].id != s[j].id
  }

  /** No two records share a provider id. */
  ghost predicate UniqueFacebookIds(s: seq<Account>) {
    forall i, j :: 0 <= i < j < |s| ==> s[i].facebookId != s[j].facebookId
  }

  /** Appending a record whose id and provider id no other record has keeps both unique. */
  lemma AppendKeepsUnique(s: seq<Account>, x: Account)
    requires UniqueIds(s) && UniqueFacebookIds(s)
    requires forall i :: 0 <= i < |s| ==> s[i].id != x.id && s[i].facebookId != x.facebookId
    ensures UniqueIds(s + [x]) && UniqueFacebookIds(s + [x])
  {
    var t := s + [x];
    assert forall i :: 0 <= i < |s| ==> t[i] == s[i];
    assert t[|s|] == x;
  }

  /** The largest id in a non-empty list. */
  function MaxId(s: seq<Account>): (m: int)
    requires s != []
    ensures forall i :: 0 <= i < |s| ==> s[i].id <= m
    ensures exists i :: 0 <= i < |s| && s[i].id == m
  {
    if |s| == 1 then s[0].id
    else
      var m := MaxId(s[1..]);
      assert forall i :: 1 <= i < |s| ==> s[i] == s[1..][i - 1];
      if s[0].id >= m then s[0].id else m
  }

  /** `newAccountId`: 1 on an empty list, otherwise the largest id plus one. */
  function NewAccountId(s: seq<Account>): (r: int)
    ensures forall i :: 0 <= i < |s| ==> s[i].id < r
    ensures s == [] ==> r == 1
    ensures s != [] ==> exists i :: 0 <= i < |s| && s[i].id == r - 1
  {
    if |s| > 0 then MaxId(s) + 1 else 1
  }

  /** `filter(x => x.id !== id)`: the records whose id differs, in their original order. */
  function WithoutId(s: seq<Account>, id: int): (r: seq<Account>)
    ensures |r| <= |s|
  {
    if s == [] then []
    else (if s[0].id != id then [s[0]] else []) + WithoutId(s[1..], id)
  }

  /** The filter keeps exactly the records whose id differs. */
  lemma {:induction false} WithoutIdMembers(s: seq<Account>, id: int)
    ensures forall a :: a in WithoutId(s, id) <==> a in s && a.id != id
  {
    if s != [] {
      WithoutIdMembers(s[1..], id);
      assert forall a :: a in s <==> a == s[0] || a in s[1..];
    }
  }

  /** Filtering a concatenation filters each part. */
  lemma {:induction false} WithoutIdConcat(s: seq<Account>, t: seq<Account>, id: int)
    ensures WithoutId(s + t, id) == WithoutId(s, id) + WithoutId(t, id)
  {
    if s != [] {
      assert (s + t)[0] == s[0];
      assert (s + t)[1..] == s[1..] + t;
      WithoutIdConcat(s[1..], t, id);
    } else {
      assert s + t == t;
    }
  }

  /** When no record has the id, the filter keeps the list as it is. */
  lemma {:induction false} WithoutAbsentId(s: seq<Account>, id: int)
    requires forall i :: 0 <= i < |s| ==> s[i].id != id
    ensures WithoutId(s, id) == s
  {
    if s != [] {
      WithoutAbsentId(s[1..], id);
    }
  }

  /** With unique ids, the filter removes exactly the one record carrying the id and keeps
      the others in order. */
  lemma {:induction false} WithoutUniqueId(s: seq<Account>, k: nat)
    requires UniqueIds(s) && k < |s|
    ensures WithoutId(s, s[k].id) == s[..k] + s[k + 1..]
  {
    var id := s[k].id;
    var before, after := s[..k], s[k + 1..];
    assert s == before + [s[k]] + after;
    forall i | 0 <= i < |before|
      ensures before[i].id != id
    {
      assert before[i] == s[i];
    }
    forall i | 0 <= i < |after|
      ensures after[i].id != id
    {
      assert after[i] == s[k + 1 + i];
    }
    WithoutIdConcat(before + [s[k]], after, id);
    WithoutIdConcat(before, [s[k]], id);
    WithoutAbsentId(before, id);
    WithoutAbsentId(after, id);
    assert WithoutId([s[k]], id) == [];
  }

  /** Filtering twice by the same id is filtering once. */
  lemma WithoutIdIdempotent(s: seq<Account>, id: int)
    ensures WithoutId(WithoutId(s, id), id) == WithoutId(s, id)
  {
    var r := WithoutId(s, id);
    WithoutIdMembers(s, id);
    assert forall i :: 0 <= i < |r| ==> r[i] in r;
    WithoutAbsentId(r, id);
  }

  /** The filter keeps a sub-list, so it keeps ids unique. */
  lemma {:induction false} WithoutIdKeepsUnique(s: seq<Account>, id: int)
    requires UniqueIds(s)
    ensures UniqueIds(WithoutId(s, id))
  {
    if s != [] {
      WithoutIdKeepsUnique(s[1..], id);
      var rest := WithoutId(s[1..], id);
      WithoutIdMembers(s[1..], id);
      assert forall j :: 0 <= j < |rest| ==> rest[j] in s[1..];
      assert forall a :: a in s[1..] ==> a.id != s[0].id;
    }
  }
}
