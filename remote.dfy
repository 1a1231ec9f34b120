/** Vocabulary shared by every store: optional values, JavaScript properties that may be missing,
    the abstract outcome of one remote call, the requests a store issues, and the ordered
    key/value parameters of a query string. */
module Remote {
  import opened Text

  datatype Option<+T> = None | Some(value: T)

  datatype Result<+T, +E> = Success(value: T) | Failure(error: E)

  /** A property of a JavaScript object: missing (`undefined`), `null`, or holding a value. */
  datatype Field<+T> = Undefined | Null | Value(value: T)

  /** `f ?? default`: the held value, or the default for `undefined` and `null` alike. */
  function Coalesce<T>(f: Field<T>, default: T): (r: T)
    ensures f.Value? ==> r == f.value
    ensures !f.Value? ==> r == default
  {
    if f.Value? then f.value else default
  }

  /** `f ?? null`: a missing property becomes `null`; `null` and held values pass through. */
  function OrNull<T>(f: Field<T>): (r: Field<T>)
    ensures !r.Undefined?
    ensures r.Value? <==> f.Value?
    ensures !f.Undefined? ==> r == f
  {
    if f.Value? then f else Null
  }

  /** What one `fetch` amounts to for the caller: a 2xx response with its parsed payload,
      a response that is not ok, or a rejected promise carrying an error message. */
  datatype Outcome<+T> = Ok(payload: T) | NotOk | Raised(message: string)

  datatype Verb = Get | Post | Put | Patch | Delete

  /** A request issued to the backend; the URL is relative to the configured API base URL. */
  datatype Request = Request(verb: Verb, url: string)

  /** The bearer credential is usable exactly when it is truthy: present and non-empty. */
  predicate Present(token: Option<string>)
  {
    token.Some? && token.value != ""
  }

  /** JavaScript truthiness of an optional number: `null`, `undefined` and `0` are falsy. */
  predicate Truthy(n: Option<int>)
  {
    n.Some? && n.value != 0
  }

  // ----- query parameters (URLSearchParams as an ordered list of pairs) -----

  /** The names of the query parameters the stores send. */
  datatype QueryKey =
    | Year | Month | Week | Limit | Id | Attribute | ValueKey | LocationId
    | ActivityTypeId | ActivitySubTypeId
    | LatitudeLowerBound | LatitudeUpperBound | LongitudeLowerBound | LongitudeUpperBound

  /** The text of a parameter name as it appears in the query string. */
  function KeyName(k: QueryKey): (s: string)
    ensures s != ""
  {
    match k
    case Year => "year"
    case Month => "month"
    case Week => "week"
    case Limit => "limit"
    case Id => "id"
    case Attribute => "attribute"
    case ValueKey => "value"
    case LocationId => "location_id"
    case ActivityTypeId => "activity_type_id"
    case ActivitySubTypeId => "activity_sub_type_id"
    case LatitudeLowerBound => "latitude_lower_bound"
    case LatitudeUpperBound => "latitude_upper_bound"
    case LongitudeLowerBound => "longitude_lower_bound"
    case LongitudeUpperBound => "longitude_upper_bound"
  }

  type Param = (QueryKey, string)

  function Keys(ps: seq<Param>): (ks: seq<QueryKey>)
    ensures |ks| == |ps|
    ensures forall i :: 0 <= i < |ps| ==> ks[i] == ps[i].0
  {
    seq(|ps|, i requires 0 <= i < |ps| => ps[i].0)
  }

  /** `params.get(key)`: the value of the first pair with that key. */
  function Lookup(ps: seq<Param>, key: QueryKey): (r: Option<string>)
    ensures r.Some? ==> (key, r.value) in ps
  {
    if ps == [] then None
    else if ps[0].0 == key then Some(ps[0].1)
    else Lookup(ps[1..], key)
  }

  /** A key is found exactly when some pair carries it. */
  lemma {:induction false} LookupNone(ps: seq<Param>, key: QueryKey)
    ensures Lookup(ps, key).None? <==> forall i :: 0 <= i < |ps| ==> ps[i].0 != key
  {
    if ps != [] {
      LookupNone(ps[1..], key);
      assert forall i :: 1 <= i < |ps| ==> ps[i] == ps[1..][i - 1];
    }
  }

  /** The value found for the key of a pair that no earlier pair shares is that pair's value. */
  lemma {:induction false} LookupAt(ps: seq<Param>, i: nat)
    requires i < |ps|
    requires forall j :: 0 <= j < i ==> ps[j].0 != ps[i].0
    ensures Lookup(ps, ps[i].0) == Some(ps[i].1)
  {
    if i > 0 {
      assert ps[1..][i - 1] == ps[i];
      LookupAt(ps[1..], i - 1);
    }
  }

  /** Position of a key in a fixed list of keys, or the list's length when it is not there. */
  function Rank(order: seq<QueryKey>, key: QueryKey): (r: nat)
    ensures r <= |order|
    ensures r < |order| <==> key in order
    ensures r < |order| ==> order[r] == key
  {
    if order == [] then 0
    else if order[0] == key then 0
    else 1 + Rank(order[1..], key)
  }

  /** Every key is one of `order`, and the pairs follow `order` with no key repeated. */
  predicate InOrder(ps: seq<Param>, order: seq<QueryKey>)
  {
    && (forall i :: 0 <= i < |ps| ==> ps[i].0 in order)
    && (forall i, j :: 0 <= i < j < |ps| ==> Rank(order, ps[i].0) < Rank(order, ps[j].0))
  }

  /** The lookup in a concatenation finds the first list's pair before the second's. */
  lemma {:induction false} LookupAppend(ps: seq<Param>, qs: seq<Param>, key: QueryKey)
    ensures Lookup(ps + qs, key) == if Lookup(ps, key).Some? then Lookup(ps, key) else Lookup(qs, key)
  {
    if ps != [] {
      assert (ps + qs)[1..] == ps[1..] + qs;
      LookupAppend(ps[1..], qs, key);
    } else {
      assert ps + qs == qs;
    }
  }

  /** Two lists in order, every key of the first ranked before every key of the second, make a
      list in order. */
  lemma InOrderAppend(ps: seq<Param>, qs: seq<Param>, order: seq<QueryKey>)
    requires InOrder(ps, order) && InOrder(qs, order)
    requires forall i, j :: 0 <= i < |ps| && 0 <= j < |qs| ==>
               Rank(order, ps[i].0) < Rank(order, qs[j].0)
    ensures InOrder(ps + qs, order)
  {
    var r := ps + qs;
    forall i, j | 0 <= i < j < |r| ensures Rank(order, r[i].0) < Rank(order, r[j].0) {
      if j < |ps| {
        assert r[i] == ps[i] && r[j] == ps[j];
      } else if i < |ps| {
        assert r[i] == ps[i] && r[j] == qs[j - |ps|];
      } else {
        assert r[i] == qs[i - |ps|] && r[j] == qs[j - |ps|];
      }
    }
  }

  /** The rendered value of an optional number that is sent only when truthy
      (`if (n) params.append(key, n.toString())`). */
  function TruthyText(n: Option<int>): (r: Option<string>)
    ensures r.Some? <==> Truthy(n)
    ensures r.Some? ==> r.value == IntToString(n.value)
  {
    if Truthy(n) then Some(IntToString(n.value)) else None
  }

  /** The rendered value of an optional number that is sent unless it is `null` or `undefined`
      (`if (n !== undefined && n !== null) params.append(...)`). */
  function PresentText(n: Option<int>): (r: Option<string>)
    ensures r.Some? <==> n.Some?
    ensures r.Some? ==> r.value == IntToString(n.value)
  {
    if n.Some? then Some(IntToString(n.value)) else None
  }

  // ----- a query built by appending, in a fixed order, each parameter whose value is present -----

  /** A parameter the code may append: its key, and its value when the code appends it. */
  type Slot = (QueryKey, Option<string>)

  function SlotKeys(slots: seq<Slot>): (ks: seq<QueryKey>)
    ensures |ks| == |slots|
    ensures forall i :: 0 <= i < |slots| ==> ks[i] == slots[i].0
  {
    seq(|slots|, i requires 0 <= i < |slots| => slots[i].0)
  }

  predicate DistinctKeys(slots: seq<Slot>)
  {
    forall i, j :: 0 <= i < j < |slots| ==> slots[i].0 != slots[j].0
  }

  /** The value of the first slot with this key, or `None` when no slot has it. */
  function SlotValue(slots: seq<Slot>, key: QueryKey): (r: Option<string>)
    ensures (forall i :: 0 <= i < |slots| ==> slots[i].0 != key) ==> r.None?
  {
    if slots == [] then None
    else if slots[0].0 == key then slots[0].1
    else SlotValue(slots[1..], key)
  }

  /** What one conditional `append` adds: the pair when the value is present, else nothing. */
  function Part(slot: Slot): (ps: seq<Param>)
    ensures slot.1.None? ==> ps == []
    ensures slot.1.Some? ==> ps == [(slot.0, slot.1.value)]
  {
    if slot.1.Some? then [(slot.0, slot.1.value)] else []
  }

  /** The parameters after the successive conditional `append`s: the present slots, in order. */
  function Appended(slots: seq<Slot>): (ps: seq<Param>)
    ensures |ps| <= |slots|
  {
    if slots == [] then [] else Part(slots[0]) + Appended(slots[1..])
  }

  /** Every key of the query is the key of one of the slots. */
  lemma {:induction false} AppendedKeys(slots: seq<Slot>)
    ensures forall i :: 0 <= i < |Appended(slots)| ==> Appended(slots)[i].0 in SlotKeys(slots)
  {
    if slots != [] {
      AppendedKeys(slots[1..]);
      assert SlotKeys(slots)[1..] == SlotKeys(slots[1..]);
    }
  }

  /** With distinct keys, the query carries each slot's value exactly when it is present. */
  lemma {:induction false} AppendedLookup(slots: seq<Slot>, key: QueryKey)
    requires DistinctKeys(slots)
    ensures Lookup(Appended(slots), key) == SlotValue(slots, key)
  {
    if slots != [] {
      var head := Part(slots[0]);
      var rest := slots[1..];
      assert Appended(slots) == head + Appended(rest);
      assert DistinctKeys(rest) by {
        assert forall i :: 0 <= i < |rest| ==> rest[i] == slots[i + 1];
      }
      AppendedLookup(rest, key);
      LookupAppend(head, Appended(rest), key);
      if slots[0].0 == key {
        assert forall i :: 0 <= i < |rest| ==> rest[i].0 != key by {
          assert forall i :: 0 <= i < |rest| ==> rest[i] == slots[i + 1];
        }
      }
    }
  }

  /** With distinct keys, the query carries the value of the slot at any position. */
  lemma AppendedAt(slots: seq<Slot>, i: nat)
    requires DistinctKeys(slots) && i < |slots|
    ensures Lookup(Appended(slots), slots[i].0) == slots[i].1
  {
    AppendedLookup(slots, slots[i].0);
    SlotValueAt(slots, i);
  }

  lemma {:induction false} SlotValueAt(slots: seq<Slot>, i: nat)
    requires DistinctKeys(slots) && i < |slots|
    ensures SlotValue(slots, slots[i].0) == slots[i].1
  {
    if i > 0 {
      var rest := slots[1..];
      assert rest[i - 1] == slots[i];
      assert DistinctKeys(rest) by {
        assert forall k :: 0 <= k < |rest| ==> rest[k] == slots[k + 1];
      }
      SlotValueAt(rest, i - 1);
    }
  }

  /** Appending the slots of two lists one after the other is appending each list's. */
  lemma {:induction false} AppendedSplit(xs: seq<Slot>, ys: seq<Slot>)
    ensures Appended(xs + ys) == Appended(xs) + Appended(ys)
  {
    if xs == [] {
      assert xs + ys == ys;
    } else {
      assert (xs + ys)[1..] == xs[1..] + ys;
      AppendedSplit(xs[1..], ys);
    }
  }

  lemma AppendedOne(slot: Slot)
    ensures Appended([slot]) == Part(slot)
  {
    assert [slot][1..] == [];
  }

  /** The step-by-step form of a query of two to five slots: one conditional `append` each. */
  lemma AppendedTwo(a: Slot, b: Slot)
    ensures Appended([a, b]) == Part(a) + Part(b)
  {
    AppendedOne(a);
    AppendedOne(b);
    AppendedSplit([a], [b]);
    assert [a, b] == [a] + [b];
  }

  lemma AppendedThree(a: Slot, b: Slot, c: Slot)
    ensures Appended([a, b, c]) == Part(a) + Part(b) + Part(c)
  {
    AppendedTwo(a, b);
    AppendedOne(c);
    AppendedSplit([a, b], [c]);
    assert [a, b, c] == [a, b] + [c];
  }

  lemma AppendedFour(a: Slot, b: Slot, c: Slot, d: Slot)
    ensures Appended([a, b, c, d]) == Part(a) + Part(b) + Part(c) + Part(d)
  {
    AppendedThree(a, b, c);
    AppendedOne(d);
    AppendedSplit([a, b, c], [d]);
    assert [a, b, c, d] == [a, b, c] + [d];
  }

  lemma AppendedFive(a: Slot, b: Slot, c: Slot, d: Slot, e: Slot)
    ensures Appended([a, b, c, d, e]) == Part(a) + Part(b) + Part(c) + Part(d) + Part(e)
  {
    AppendedFour(a, b, c, d);
    AppendedOne(e);
    AppendedSplit([a, b, c, d], [e]);
    assert [a, b, c, d, e] == [a, b, c, d] + [e];
  }

  /** With distinct keys, the query's pairs follow the slots' order. */
  lemma {:induction false} AppendedInOrder(slots: seq<Slot>)
    requires DistinctKeys(slots)
    ensures InOrder(Appended(slots), SlotKeys(slots))
  {
    if slots != [] {
      var order := SlotKeys(slots);
      var head := Part(slots[0]);
      var rest := slots[1..];
      var tail := Appended(rest);
      assert Appended(slots) == head + tail;
      assert DistinctKeys(rest) by {
        assert forall i :: 0 <= i < |rest| ==> rest[i] == slots[i + 1];
      }
      AppendedInOrder(rest);
      AppendedKeys(rest);
      assert order[1..] == SlotKeys(rest);
      // every key of the tail is a later slot's, so its rank is one more than in the rest
      forall i | 0 <= i < |tail|
        ensures tail[i].0 != slots[0].0 && Rank(order, tail[i].0) == 1 + Rank(SlotKeys(rest), tail[i].0)
      {
        var k :| 0 <= k < |rest| && SlotKeys(rest)[k] == tail[i].0;
        assert rest[k] == slots[k + 1];
      }
      assert Rank(order, slots[0].0) == 0;
      assert InOrder(tail, order) by {
        forall i | 0 <= i < |tail| ensures tail[i].0 in order {
          assert tail[i].0 in SlotKeys(rest);
        }
      }
      InOrderAppend(head, tail, order);
    }
  }

  /** `params.toString()` without percent-encoding: `k1=v1&k2=v2&...`. */
  function QueryString(ps: seq<Param>): (s: string)
    ensures s == "" <==> ps == []
    ensures ps != [] ==> '=' in s
  {
    if ps == [] then ""
    else
      var last := KeyName(ps[|ps| - 1].0) + "=" + ps[|ps| - 1].1;
      assert last[|KeyName(ps[|ps| - 1].0)|] == '=';
      if |ps| == 1 then last
      else
        var s := QueryString(ps[..|ps| - 1]) + "&" + last;
        assert s[|s| - |last| + |KeyName(ps[|ps| - 1].0)|] == '=';
        s
  }

  /** A path followed by `?` and the query string, the `?` written only when the query string is
      not empty (the form `path${qs ? '?' + qs : ''}`, and also what `new URL(...)` renders). */
  function WithQuery(path: string, ps: seq<Param>): (url: string)
    ensures ps == [] ==> url == path
    ensures ps != [] ==> url == path + "?" + QueryString(ps)
  {
    var qs := QueryString(ps);
    path + (if qs != "" then "?" + qs else "")
  }

  // ----- list operations (Array.prototype.filter and findIndex) -----

  /** `xs.filter(keep)`. */
  function Filter<T>(xs: seq<T>, keep: T -> bool): (r: seq<T>)
    ensures |r| <= |xs|
    ensures forall i :: 0 <= i < |r| ==> r[i] in xs && keep(r[i])
    ensures forall i :: 0 <= i < |xs| && keep(xs[i]) ==> xs[i] in r
  {
    if xs == [] then []
    else (if keep(xs[0]) then [xs[0]] else []) + Filter(xs[1..], keep)
  }

  /** Filtering distributes over concatenation, so the kept elements stay in their original order. */
  lemma {:induction false} FilterAppend<T>(xs: seq<T>, ys: seq<T>, keep: T -> bool)
    ensures Filter(xs + ys, keep) == Filter(xs, keep) + Filter(ys, keep)
  {
    if xs == [] {
      assert xs + ys == ys;
    } else {
      assert (xs + ys)[1..] == xs[1..] + ys;
      FilterAppend(xs[1..], ys, keep);
    }
  }

  /** A list whose every element is kept is returned unchanged. */
  lemma {:induction false} FilterKeepsAll<T>(xs: seq<T>, keep: T -> bool)
    requires forall i :: 0 <= i < |xs| ==> keep(xs[i])
    ensures Filter(xs, keep) == xs
  {
    if xs != [] {
      FilterKeepsAll(xs[1..], keep);
    }
  }

  /** Filtering twice by the same predicate is filtering once. */
  lemma {:induction false} FilterIdempotent<T>(xs: seq<T>, keep: T -> bool)
    ensures Filter(Filter(xs, keep), keep) == Filter(xs, keep)
  {
    var r := Filter(xs, keep);
    FilterKeepsAll(r, keep);
  }

  /** `xs.findIndex(p)`: the first index whose element satisfies `p`, if any. */
  function FindIndex<T>(xs: seq<T>, p: T -> bool): (r: Option<nat>)
    ensures r.Some? ==> r.value < |xs| && p(xs[r.value])
    ensures r.Some? ==> forall j :: 0 <= j < r.value ==> !p(xs[j])
    ensures r.None? <==> forall j :: 0 <= j < |xs| ==> !p(xs[j])
  {
    if xs == [] then None
    else if p(xs[0]) then Some(0)
    else match FindIndex(xs[1..], p)
      case None => None
      case Some(k) => Some(k + 1)
  }
}
