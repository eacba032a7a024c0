/** The name of a fragment: the sorted keys of its items joined by commas. */
module FragmentKeys {
  /** Lexicographic order on strings. */
  predicate Leq(a: string, b: string) {
    a == "" || (b != "" && (a[0] < b[0] || (a[0] == b[0] && Leq(a[1..], b[1..]))))
  }

  lemma {:induction false} LeqTotal(a: string, b: string)
    ensures Leq(a, b) || Leq(b, a)
  {
    if a != "" && b != "" && a[0] == b[0] {
      LeqTotal(a[1..], b[1..]);
    }
  }

  lemma {:induction false} LeqAntisymmetric(a: string, b: string)
    requires Leq(a, b) && Leq(b, a)
    ensures a == b
  {
    if a != "" && b != "" {
      LeqAntisymmetric(a[1..], b[1..]);
      assert a == [a[0]] + a[1..] && b == [b[0]] + b[1..];
    }
  }

  lemma {:induction false} LeqTransitive(a: string, b: string, c: string)
    requires Leq(a, b) && Leq(b, c)
    ensures Leq(a, c)
  {
    if a != "" && b != "" && c != "" && a[0] == b[0] == c[0] {
      LeqTransitive(a[1..], b[1..], c[1..]);
    }
  }

  /** Sorted without repetitions. */
  ghost predicate Sorted(ids: seq<string>) {
    forall i, j | 0 <= i < j < |ids| :: Leq(ids[i], ids[j]) && ids[i] != ids[j]
  }

  ghost predicate Lists(ids: seq<string>, keys: set<string>) {
    Sorted(ids) && forall k :: k in ids <==> k in keys
  }

  function Inserted(ids: seq<string>, k: string): (r: seq<string>)
    requires Sorted(ids) && k !in ids
    ensures Sorted(r) && forall x :: x in r <==> x in ids || x == k
  {
    if ids == [] then [k]
    else if Leq(k, ids[0]) then
      InsertFirst(ids, k);
      [k] + ids
    else
      var rest := Inserted(ids[1..], k);
      InsertLater(ids, k, rest);
      [ids[0]] + rest
  }

  lemma InsertFirst(ids: seq<string>, k: string)
    requires Sorted(ids) && k !in ids && ids != [] && Leq(k, ids[0])
    ensures Sorted([k] + ids)
  {
    forall j | 0 <= j < |ids| ensures Leq(k, ids[j]) {
      if j > 0 {
        LeqTransitive(k, ids[0], ids[j]);
      }
    }
  }

  lemma InsertLater(ids: seq<string>, k: string, rest: seq<string>)
    requires Sorted(ids) && ids != [] && k !in ids && !Leq(k, ids[0])
    requires Sorted(rest) && forall x :: x in rest <==> x in ids[1..] || x == k
    ensures Sorted([ids[0]] + rest) && forall x :: x in [ids[0]] + rest <==> x in ids || x == k
  {
    LeqTotal(k, ids[0]);
    assert ids == [ids[0]] + ids[1..];
    forall j | 0 <= j < |rest| ensures Leq(ids[0], rest[j]) && ids[0] != rest[j] {
      assert rest[j] in rest;
      if rest[j] != k {
        var i :| 0 <= i < |ids[1..]| && ids[1..][i] == rest[j];
        assert ids[i + 1] == rest[j];
      }
    }
  }

  /** A set of keys has only one sorted listing, whatever order they were found in. */
  lemma {:induction false} ListingIsUnique(ids: seq<string>, jds: seq<string>, keys: set<string>)
    requires Lists(ids, keys) && Lists(jds, keys)
    ensures ids == jds
    decreases |ids|
  {
    if ids == [] {
      if jds != [] {
        FirstListed(jds, keys);
      }
    } else {
      assert ids[0] in ids;
      assert ids[0] in jds;
      FirstIsLeast(ids, jds[0]);
      FirstIsLeast(jds, ids[0]);
      LeqAntisymmetric(ids[0], jds[0]);
      TailLists(ids, keys);
      TailLists(jds, keys);
      ListingIsUnique(ids[1..], jds[1..], keys - {ids[0]});
      assert ids == [ids[0]] + ids[1..] && jds == [jds[0]] + jds[1..];
    }
  }

  lemma FirstListed(ids: seq<string>, keys: set<string>)
    requires Lists(ids, keys) && ids != []
    ensures ids[0] in keys
  {
    assert ids[0] in ids;
  }

  lemma FirstIsLeast(ids: seq<string>, k: string)
    requires Sorted(ids) && k in ids
    ensures Leq(ids[0], k)
  {
    LeqTotal(k, k);
  }

  lemma TailLists(ids: seq<string>, keys: set<string>)
    requires Lists(ids, keys) && ids != []
    ensures Lists(ids[1..], keys - {ids[0]})
  {
    assert ids == [ids[0]] + ids[1..];
  }

  ghost function SortedKeys(keys: set<string>): (ids: seq<string>)
    ensures Lists(ids, keys)
  {
    if keys == {} then []
    else
      var k :| k in keys;
      Inserted(SortedKeys(keys - {k}), k)
  }

  function Joined(ids: seq<string>): string {
    if |ids| == 0 then "" else if |ids| == 1 then ids[0] else ids[0] + "," + Joined(ids[1..])
  }

  /** `fragment_key`. */
  ghost function KeyOf(keys: set<string>): string {
    if keys == {} then "empty" else Joined(SortedKeys(keys))
  }

  /** The key is the same whatever order the map yields its keys in. */
  method FragmentKey(keys: set<string>) returns (name: string)
    ensures name == KeyOf(keys)
  {
    if keys == {} {
      return "empty";
    }
    var ids, rest := [], keys;
    while rest != {}
      invariant rest <= keys && Lists(ids, keys - rest)
      decreases |rest|
    {
      var k :| k in rest;
      ids := Inserted(ids, k);
      rest := rest - {k};
    }
    assert keys - rest == keys;
    ListingIsUnique(ids, SortedKeys(keys), keys);
    name := Joined(ids);
  }

  lemma ListedName(ids: seq<string>, keys: set<string>)
    requires Lists(ids, keys) && ids != []
    ensures KeyOf(keys) == Joined(ids)
  {
    assert ids[0] in ids;
    ListingIsUnique(ids, SortedKeys(keys), keys);
  }

  lemma SomeListed(keys: set<string>)
    requires keys != {}
    ensures SortedKeys(keys) != []
  {
    var k :| k in keys;
    assert k in SortedKeys(keys);
  }

  lemma OneKey(k: string)
    ensures KeyOf({k}) == k
  {
    ListedName([k], {k});
  }

  // ---------------------------------------------------------------- names as sequences of pieces

  predicate Plain(k: string) { ',' !in k }

  /** The pieces of a string between its commas. */
  function Split(s: string): (pieces: seq<string>)
    ensures pieces != []
  {
    if s == "" then [""]
    else if s[0] == ',' then [""] + Split(s[1..])
    else var rest := Split(s[1..]); [[s[0]] + rest[0]] + rest[1..]
  }

  lemma {:induction false} SplitPlain(k: string)
    requires Plain(k)
    ensures Split(k) == [k]
  {
    if k != "" {
      assert k[0] in k;
      SplitPlain(k[1..]);
      assert k == [k[0]] + k[1..];
    }
  }

  lemma {:induction false} SplitCons(s: string, t: string)
    ensures Split(s + "," + t) == Split(s) + Split(t)
    decreases |s|
  {
    var u := s + "," + t;
    if s == "" {
      assert u == [','] + t && u[1..] == t;
    } else {
      assert u[0] == s[0] && u[1..] == s[1..] + "," + t;
      SplitCons(s[1..], t);
    }
  }

  /** Joining undoes splitting. */
  lemma {:induction false} JoinedSplit(s: string)
    ensures Joined(Split(s)) == s
  {
    if s != "" {
      var rest := Split(s[1..]);
      JoinedSplit(s[1..]);
      assert s == [s[0]] + s[1..];
      if s[0] == ',' {
        assert ([""] + rest)[1..] == rest;
      } else {
        assert ([[s[0]] + rest[0]] + rest[1..])[1..] == rest[1..];
      }
    }
  }

  /** All pieces of all keys. */
  function Cut(ids: seq<string>): seq<string> {
    if ids == [] then [] else Split(ids[0]) + Cut(ids[1..])
  }

  lemma {:induction false} SplitJoined(ids: seq<string>)
    requires ids != []
    ensures Split(Joined(ids)) == Cut(ids)
  {
    if |ids| == 1 {
      assert Cut(ids[1..]) == [];
    } else {
      SplitJoined(ids[1..]);
      SplitCons(ids[0], Joined(ids[1..]));
    }
  }

  lemma {:induction false} CutPlain(ids: seq<string>)
    requires forall k | k in ids :: Plain(k)
    ensures Cut(ids) == ids
  {
    if ids != [] {
      assert ids[0] in ids;
      SplitPlain(ids[0]);
      CutPlain(ids[1..]);
      assert ids == [ids[0]] + ids[1..];
    }
  }

  /** The pieces of a fragment's keys, in the order of the keys. */
  ghost function Pieces(keys: set<string>): seq<string> {
    if keys == {} then ["empty"] else Cut(SortedKeys(keys))
  }

  lemma PiecesOfName(keys: set<string>)
    ensures Split(KeyOf(keys)) == Pieces(keys)
  {
    if keys == {} {
      SplitPlain("empty");
    } else {
      SomeListed(keys);
      SplitJoined(SortedKeys(keys));
    }
  }

  // ---------------------------------------------------------------- which fragments share a name

  /** Any two fragments share a name exactly when their keys, in order, are the same pieces however
      grouped into keys. */
  lemma SameNameSamePieces(a: set<string>, b: set<string>)
    ensures KeyOf(a) == KeyOf(b) <==> Pieces(a) == Pieces(b)
  {
    PiecesOfName(a);
    PiecesOfName(b);
    JoinedSplit(KeyOf(a));
    JoinedSplit(KeyOf(b));
  }

  lemma PlainPieces(keys: set<string>)
    requires forall k | k in keys :: Plain(k)
    ensures forall k :: k in Pieces(keys) <==> k in keys || (keys == {} && k == "empty")
  {
    CutPlain(SortedKeys(keys));
  }

  /** Without commas the name tells fragments apart, but for the empty one and the one whose only
      key is `empty`. */
  lemma PlainKeysTellApart(a: set<string>, b: set<string>)
    requires (forall k | k in a :: Plain(k)) && (forall k | k in b :: Plain(k))
    ensures KeyOf(a) == KeyOf(b) <==> a == b || (a == {} && b == {"empty"}) || (a == {"empty"} && b == {})
  {
    SameNameSamePieces(a, b);
    PlainPieces(a);
    PlainPieces(b);
    OneKey("empty");
    if KeyOf(a) == KeyOf(b) {
      assert forall k :: (k in a || (a == {} && k == "empty")) <==> (k in b || (b == {} && k == "empty"));
    }
  }

  /** Strictly smaller, in the order the keys are sorted by. */
  predicate Before(x: string, y: string) { Leq(x, y) && x != y }

  /** Two keys have the name of the one key that joins them. */
  lemma CommasCollide(x: string, y: string)
    requires Before(x, y)
    ensures KeyOf({x, y}) == KeyOf({x + "," + y}) && {x, y} != {x + "," + y}
  {
    OneKey(x + "," + y);
    assert Lists([x, y], {x, y});
    ListedName([x, y], {x, y});
    assert Joined([x, y][1..]) == y;
    assert x in {x, y} && y in {x, y};
  }

  /** At some comma of `s` what precedes it sorts before what follows. */
  ghost predicate Divisible(s: string) {
    exists i :: 0 <= i < |s| && DividesAt(s, i)
  }

  predicate DividesAt(s: string, i: nat)
    requires i < |s|
  {
    s[i] == ',' && Before(s[..i], s[i + 1..])
  }

  /** No other fragment has the name of this one. */
  ghost predicate Unmistakable(keys: set<string>) {
    forall other :: KeyOf(other) == KeyOf(keys) ==> other == keys
  }

  lemma {:induction false} LeqLonger(k: string, t: string)
    ensures Leq(k, k + t)
  {
    if k != "" {
      assert (k + t)[1..] == k[1..] + t;
      LeqLonger(k[1..], t);
    }
  }

  lemma FirstBeforeRest(ids: seq<string>)
    requires Sorted(ids) && |ids| >= 2
    ensures Before(ids[0], Joined(ids[1..]))
  {
    var rest := Joined(ids[1..]);
    assert Leq(ids[1], rest) by {
      if |ids| == 2 {
        LeqTotal(ids[1], ids[1]);
      } else {
        assert rest == ids[1] + ("," + Joined(ids[1..][1..]));
        LeqLonger(ids[1], "," + Joined(ids[1..][1..]));
      }
    }
    LeqTransitive(ids[0], ids[1], rest);
    if ids[0] == rest {
      LeqAntisymmetric(ids[0], ids[1]);
    }
  }

  lemma TwoKeysDivide(ids: seq<string>)
    requires Sorted(ids) && |ids| >= 2
    ensures Divisible(Joined(ids))
  {
    FirstBeforeRest(ids);
    var s, i := Joined(ids), |ids[0]|;
    assert s[..i] == ids[0] && s[i] == ',' && s[i + 1..] == Joined(ids[1..]);
    assert DividesAt(s, i);
  }

  /** A name that is not `empty` and cannot be divided belongs to one fragment only. */
  lemma IndivisibleIsOneKey(s: string, other: set<string>)
    requires s != "empty" && !Divisible(s) && KeyOf(other) == s
    ensures other == {s}
  {
    var ids := SortedKeys(other);
    SomeListed(other);
    if |ids| >= 2 {
      TwoKeysDivide(ids);
    }
    assert ids == [s];
    assert forall k :: k in other <==> k == s;
  }

  lemma DivisibleCollides(s: string) returns (other: set<string>)
    requires Divisible(s)
    ensures KeyOf(other) == s && other != {s}
  {
    var i :| 0 <= i < |s| && DividesAt(s, i);
    var x, y := s[..i], s[i + 1..];
    assert s == x + "," + y;
    CommasCollide(x, y);
    OneKey(s);
    other := {x, y};
  }

  lemma TellsApart(keys: set<string>, other: set<string>)
    requires Unmistakable(keys) && KeyOf(other) == KeyOf(keys)
    ensures other == keys
  {
  }

  lemma NoneShares(s: string)
    requires s != "empty" && !Divisible(s)
    ensures KeyOf({s}) == s && Unmistakable({s})
  {
    OneKey(s);
    forall other | KeyOf(other) == s ensures other == {s} {
      IndivisibleIsOneKey(s, other);
    }
  }

  lemma SomeShares(keys: set<string>)
    requires keys != {KeyOf(keys)} || KeyOf(keys) == "empty" || Divisible(KeyOf(keys))
    ensures !Unmistakable(keys)
  {
    var name := KeyOf(keys);
    OneKey(name);
    if Unmistakable(keys) {
      TellsApart(keys, {name});
      if name == "empty" {
        TellsApart(keys, {});
      } else {
        var other := DivisibleCollides(name);
        TellsApart(keys, other);
      }
    }
  }

  /** Exactly which fragments are unmistakable: those of one key that is not `empty` and has no
      comma where what precedes it sorts before what follows. */
  lemma UnmistakableIff(keys: set<string>)
    ensures Unmistakable(keys) <==> keys == {KeyOf(keys)} && KeyOf(keys) != "empty" && !Divisible(KeyOf(keys))
  {
    if keys == {KeyOf(keys)} && KeyOf(keys) != "empty" && !Divisible(KeyOf(keys)) {
      NoneShares(KeyOf(keys));
    } else {
      SomeShares(keys);
    }
  }
}
