/** The message collection as a sequence in insertion order, with the three
    operations the chat routes use: `save` of one record, `find` sorted by
    creation time, and `deleteMany({})`. Whether the database is reachable
    is a parameter of each operation. */
module MessageStore {
  import opened Wrappers
  import opened MessageSchema

  type Store = seq<Message>

  datatype StoreError = Invalid(reason: SchemaError) | Unavailable

  /** Every record in the store passed schema validation. */
  predicate Valid(s: Store) {
    forall i :: 0 <= i < |s| ==> WellFormed(s[i])
  }

  /** `new Message(draft).save()`: validate, then append the stamped record. */
  function Save(s: Store, d: Draft, at: nat, reachable: bool): (r: Result<Store, StoreError>)
    ensures r.Success? <==> reachable && Validate(d, at).Success?
    ensures r.Success? ==> |r.value| == |s| + 1 && r.value[..|s|] == s
    ensures r.Success? ==> r.value[|s|] == Validate(d, at).value
    ensures r.Success? && Valid(s) ==> Valid(r.value)
  {
    match Validate(d, at)
    case Failure(e) => Failure(Invalid(e))
    case Success(m) => if reachable then Success(s + [m]) else Failure(Unavailable)
  }

  predicate SortedByTime(s: seq<Message>) {
    forall i, j :: 0 <= i < j < |s| ==> s[i].createdAt <= s[j].createdAt
  }

  /** Places `m` after every record not newer than it. */
  function InsertByTime(m: Message, s: seq<Message>): (r: seq<Message>)
    requires SortedByTime(s)
    ensures |r| == |s| + 1
    ensures SortedByTime(r)
    ensures multiset(r) == multiset(s) + multiset{m}
    ensures r[0] == m || (|s| > 0 && r[0] == s[0])
  {
    if s == [] then [m]
    else if m.createdAt < s[0].createdAt then [m] + s
    else
      assert s == [s[0]] + s[1..];
      [s[0]] + InsertByTime(m, s[1..])
  }

  /** `find().sort({createdAt: 1})`: the records ordered by creation time,
      records with equal times kept in insertion order. */
  function SortByTime(s: seq<Message>): (r: seq<Message>)
    ensures SortedByTime(r)
    ensures multiset(r) == multiset(s)
  {
    if s == [] then []
    else
      assert s == s[..|s| - 1] + [s[|s| - 1]];
      InsertByTime(s[|s| - 1], SortByTime(s[..|s| - 1]))
  }

  /** Creation times strictly increase along the sequence. */
  predicate StrictlyIncreasing(s: seq<Message>) {
    forall i, j :: 0 <= i < j < |s| ==> s[i].createdAt < s[j].createdAt
  }

  lemma SortedTail(t: seq<Message>)
    requires SortedByTime(t) && |t| > 0
    ensures SortedByTime(t[1..])
  {
    forall i, j | 0 <= i < j < |t[1..]|
      ensures t[1..][i].createdAt <= t[1..][j].createdAt
    {
      assert t[1..][i] == t[i + 1] && t[1..][j] == t[j + 1];
    }
  }

  /** A sorted permutation of a strictly increasing sequence starts with the
      same, oldest, record. */
  lemma SameOldest(s: seq<Message>, t: seq<Message>)
    requires StrictlyIncreasing(s) && |s| > 0
    requires SortedByTime(t) && multiset(t) == multiset(s)
    ensures |t| > 0 && t[0] == s[0]
  {
    assert |t| == |multiset(t)| == |multiset(s)| == |s|;
    assert t[0] in multiset(s);
    var k :| 0 <= k < |s| && s[k] == t[0];
    assert s[0] in multiset(t);
    var m :| 0 <= m < |t| && t[m] == s[0];
    assert t[0].createdAt <= t[m].createdAt;
    assert k == 0;
  }

  lemma MultisetTail(s: seq<Message>, t: seq<Message>)
    requires |s| > 0 && |t| > 0 && s[0] == t[0] && multiset(t) == multiset(s)
    ensures multiset(t[1..]) == multiset(s[1..])
  {
    assert s == [s[0]] + s[1..];
    assert t == [t[0]] + t[1..];
    assert multiset(t[1..]) == multiset(t) - multiset{t[0]};
    assert multiset(s[1..]) == multiset(s) - multiset{s[0]};
  }

  /** When creation times strictly increase in insertion order, there is
      only one way to order the records by time: every sorted permutation is
      the sequence itself. */
  lemma {:induction false} SortedPermutationUnique(s: seq<Message>, t: seq<Message>)
    requires StrictlyIncreasing(s)
    requires SortedByTime(t) && multiset(t) == multiset(s)
    ensures t == s
  {
    if s == [] {
      assert |t| == |multiset(t)| == 0;
    } else {
      SameOldest(s, t);
      MultisetTail(s, t);
      SortedTail(t);
      SortedPermutationUnique(s[1..], t[1..]);
      assert s == [s[0]] + s[1..];
      assert t == [t[0]] + t[1..];
    }
  }

  /** A store whose creation times strictly increase is read back in
      insertion order. */
  lemma SortSortedIsIdentity(s: seq<Message>)
    requires StrictlyIncreasing(s)
    ensures SortByTime(s) == s
  {
    SortedPermutationUnique(s, SortByTime(s));
  }

  /** The sorted read of the collection. */
  function Find(s: Store, reachable: bool): (r: Result<seq<Message>, StoreError>)
    ensures r.Success? <==> reachable
    ensures r.Success? ==> SortedByTime(r.value) && multiset(r.value) == multiset(s)
  {
    if reachable then Success(SortByTime(s)) else Failure(Unavailable)
  }

  /** `deleteMany({})`: removes every record. */
  function DeleteAll(s: Store, reachable: bool): (r: Result<Store, StoreError>)
    ensures r.Success? <==> reachable
    ensures r.Success? ==> |r.value| == 0
  {
    if reachable then Success([]) else Failure(Unavailable)
  }
}
