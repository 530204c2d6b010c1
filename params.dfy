/** Request parameters: the cache fingerprint (`createCacheKey`) and the query merge of
    `buildRequestUrl`. A parameter object is its own properties in insertion order. */
module Params {
  import opened Basics
  import opened Text

  /** One own property of a parameter object; the value is already in the string form
      a template literal gives it. */
  datatype Param = Param(name: string, value: string)

  /** `Object.keys(params)`, in insertion order. */
  function Names(p: seq<Param>): (r: seq<string>)
    ensures |r| == |p|
    ensures forall i {:trigger r[i]} :: 0 <= i < |p| ==> r[i] == p[i].name
  {
    if p == [] then [] else [p[0].name] + Names(p[1..])
  }

  /** An object never has two own properties of the same name. */
  predicate DistinctNames(p: seq<Param>)
  {
    NoDuplicates(Names(p))
  }

  /** `params[name]`, with None for a property that is not there. */
  function ValueOf(p: seq<Param>, name: string): (r: Option<string>)
    ensures r.Some? <==> name in Names(p)
    ensures r.Some? ==> Param(name, r.value) in p
  {
    if p == [] then None
    else if p[0].name == name then Some(p[0].value)
    else ValueOf(p[1..], name)
  }

  /** With distinct names, `params[name]` is `value` exactly when the object holds that pair. */
  lemma {:induction false} ValueOfPair(p: seq<Param>, name: string, value: string)
    requires DistinctNames(p)
    ensures ValueOf(p, name) == Some(value) <==> Param(name, value) in p
  {
    if p != [] {
      assert Names(p[1..]) == Names(p)[1..];
      if p[0].name == name {
        forall x | x in p[1..] ensures x.name != name {
          var i :| 0 <= i < |p[1..]| && p[1..][i] == x;
          assert Names(p)[i + 1] != Names(p)[0];
        }
      } else {
        ValueOfPair(p[1..], name, value);
      }
    }
  }

  /** A template literal prints a missing property as `undefined`. */
  function Show(v: Option<string>): string
  {
    match v
    case Some(s) => s
    case None => "undefined"
  }

  // ---------------------------------------------------------------------------
  // Sorting the names (`Object.keys(params).sort()`)

  predicate StrictlySorted(s: seq<string>)
  {
    forall i, j :: 0 <= i < j < |s| ==> Below(s[i], s[j])
  }

  predicate NoDuplicates(s: seq<string>)
  {
    forall i, j :: 0 <= i < j < |s| ==> s[i] != s[j]
  }

  /** Puts `k` in front of the first element it does not come after. */
  function Insert(k: string, s: seq<string>): (r: seq<string>)
    ensures multiset(r) == multiset(s) + multiset{k}
  {
    if s == [] then [k]
    else if Below(s[0], k) then
      assert s == [s[0]] + s[1..];
      [s[0]] + Insert(k, s[1..])
    else [k] + s
  }

  /** A name below every member of a strictly sorted list can go in front of it. */
  lemma ConsSorted(x: string, t: seq<string>)
    requires StrictlySorted(t)
    requires forall y :: y in t ==> Below(x, y)
    ensures StrictlySorted([x] + t)
  {
    var r := [x] + t;
    forall i, j | 0 <= i < j < |r| ensures Below(r[i], r[j]) {
      assert r[j] == t[j - 1];
      if i > 0 {
        assert r[i] == t[i - 1];
      }
    }
  }

  lemma {:induction false} InsertSorted(k: string, s: seq<string>)
    requires StrictlySorted(s) && k !in s
    ensures StrictlySorted(Insert(k, s))
  {
    if s != [] {
      if Below(s[0], k) {
        var t := Insert(k, s[1..]);
        InsertSorted(k, s[1..]);
        forall y | y in t ensures Below(s[0], y) {
          assert y in multiset(t);
          if y != k {
            var m :| 0 <= m < |s[1..]| && s[1..][m] == y;
            assert s[m + 1] == y;
          }
        }
        ConsSorted(s[0], t);
      } else {
        BelowTotal(k, s[0]);
        forall y | y in s ensures Below(k, y) {
          var m :| 0 <= m < |s| && s[m] == y;
          if m > 0 {
            BelowTransitive(k, s[0], y);
          }
        }
        ConsSorted(k, s);
      }
    }
  }

  /** `keys.sort()` on a list of distinct names: a permutation of the input in strictly
      ascending order. */
  function SortNames(s: seq<string>): (r: seq<string>)
    ensures multiset(r) == multiset(s)
    ensures NoDuplicates(s) ==> StrictlySorted(r)
  {
    if s == [] then []
    else
      var t := SortNames(s[1..]);
      assert s == [s[0]] + s[1..];
      assert NoDuplicates(s) ==> StrictlySorted(Insert(s[0], t)) by {
        if NoDuplicates(s) {
          assert NoDuplicates(s[1..]);
          assert s[0] !in s[1..] by {
            forall m | 0 <= m < |s[1..]| ensures s[1..][m] != s[0] {
              assert s[m + 1] != s[0];
            }
          }
          assert s[0] in t <==> s[0] in multiset(s[1..]);
          InsertSorted(s[0], t);
        }
      }
      Insert(s[0], t)
  }

  /** Two strictly ascending lists holding the same strings are the same list. */
  lemma {:induction false} StrictlySortedUnique(a: seq<string>, b: seq<string>)
    requires StrictlySorted(a) && StrictlySorted(b)
    requires forall x :: x in a <==> x in b
    ensures a == b
  {
    if b != [] {
      assert b[0] in a;
    }
    if a != [] {
      assert a[0] in b;
      assert a[0] == b[0] by {
        assert b[0] in a;
        assert a[0] in b;
        var i :| 0 <= i < |a| && a[i] == b[0];
        var j :| 0 <= j < |b| && b[j] == a[0];
        if i > 0 && j > 0 {
          BelowAsymmetric(a[0], b[0]);
        }
      }
      forall x ensures x in a[1..] <==> x in b[1..] {
        if x in a[1..] {
          var i :| 0 <= i < |a[1..]| && a[1..][i] == x;
          BelowIrreflexive(x);
          assert Below(a[0], a[i + 1]);
          assert x in b;
        }
        if x in b[1..] {
          var j :| 0 <= j < |b[1..]| && b[1..][j] == x;
          BelowIrreflexive(x);
          assert Below(b[0], b[j + 1]);
          assert x in a;
        }
      }
      StrictlySortedUnique(a[1..], b[1..]);
      assert a == [a[0]] + a[1..] && b == [b[0]] + b[1..];
    }
  }

  // ---------------------------------------------------------------------------
  // createCacheKey

  /** `key=value` for each name, in the order given. */
  function Segments(p: seq<Param>, names: seq<string>): (r: seq<string>)
    ensures |r| == |names|
  {
    seq(|names|, i requires 0 <= i < |names| => names[i] + "=" + Show(ValueOf(p, names[i])))
  }

  /** Each segment starts with its name and `=`, and continues with the property's value
      (`undefined` when the object has no such property). */
  lemma SegmentShape(p: seq<Param>, names: seq<string>, i: nat)
    requires i < |names|
    ensures var s := Segments(p, names)[i];
      && |names[i]| < |s| && s[..|names[i]| + 1] == names[i] + "="
      && s[|names[i]| + 1..] == Show(ValueOf(p, names[i]))
  {
  }

  /** The fingerprint of a request: the endpoint, `?`, then `name=value` for every
      parameter in ascending name order, joined by `&`. */
  function CreateCacheKey(endpoint: string, p: seq<Param>): (r: string)
    ensures |r| > |endpoint| && r[..|endpoint| + 1] == endpoint + "?"
    ensures p == [] ==> r == endpoint + "?"
  {
    endpoint + "?" + Join("&", Segments(p, SortNames(Names(p))))
  }

  /** A parameter whose name is listed contributes its own `name=value` segment. */
  lemma SegmentOfPair(p: seq<Param>, names: seq<string>, x: Param)
    requires DistinctNames(p) && x in p && x.name in names
    ensures x.name + "=" + x.value in Segments(p, names)
  {
    var i :| 0 <= i < |names| && names[i] == x.name;
    ValueOfPair(p, x.name, x.value);
    assert Segments(p, names)[i] == x.name + "=" + x.value;
  }

  /** Sorting the names of an object keeps every one of them, each once. */
  lemma SortedNamesOf(p: seq<Param>)
    ensures |SortNames(Names(p))| == |p|
    ensures forall x :: x in p ==> x.name in SortNames(Names(p))
  {
    var names := SortNames(Names(p));
    assert |names| == |multiset(names)| == |multiset(Names(p))| == |p|;
    forall x | x in p ensures x.name in names {
      var k :| 0 <= k < |p| && p[k] == x;
      assert Names(p)[k] == x.name;
      assert x.name in multiset(names);
    }
  }

  /** The query part of the fingerprint has one `name=value` segment per parameter, and
      every parameter's pair appears among them. */
  lemma {:induction false} CacheKeySegments(p: seq<Param>)
    requires DistinctNames(p)
    ensures var segments := Segments(p, SortNames(Names(p)));
      && |segments| == |p|
      && forall x :: x in p ==> x.name + "=" + x.value in segments
  {
    var names := SortNames(Names(p));
    SortedNamesOf(p);
    forall x | x in p ensures x.name + "=" + x.value in Segments(p, names) {
      SegmentOfPair(p, names, x);
    }
  }

  /** Two objects holding the same name/value pairs give the same value for every name. */
  lemma SamePairsSameValues(p: seq<Param>, q: seq<Param>)
    requires DistinctNames(p) && DistinctNames(q)
    requires forall x :: x in p <==> x in q
    ensures forall name :: ValueOf(p, name) == ValueOf(q, name)
  {
    forall name ensures ValueOf(p, name) == ValueOf(q, name) {
      if ValueOf(p, name).Some? {
        ValueOfPair(q, name, ValueOf(p, name).value);
      } else if ValueOf(q, name).Some? {
        ValueOfPair(p, name, ValueOf(q, name).value);
      }
    }
  }

  /** Two objects holding the same name/value pairs list the same names once sorted. */
  lemma SamePairsSameSortedNames(p: seq<Param>, q: seq<Param>)
    requires DistinctNames(p) && DistinctNames(q)
    requires forall x :: x in p <==> x in q
    ensures SortNames(Names(p)) == SortNames(Names(q))
  {
    SamePairsSameValues(p, q);
    var a, b := SortNames(Names(p)), SortNames(Names(q));
    forall x ensures x in a <==> x in b {
      assert x in a <==> x in multiset(Names(p));
      assert x in b <==> x in multiset(Names(q));
      assert ValueOf(p, x).Some? <==> ValueOf(q, x).Some?;
    }
    StrictlySortedUnique(a, b);
  }

  /** The fingerprint depends on the endpoint and the set of name/value pairs only, not on
      the order in which the properties were inserted. */
  lemma {:induction false} CacheKeyOrderIndependent(endpoint: string, p: seq<Param>, q: seq<Param>)
    requires DistinctNames(p) && DistinctNames(q)
    requires forall x :: x in p <==> x in q
    ensures CreateCacheKey(endpoint, p) == CreateCacheKey(endpoint, q)
  {
    SamePairsSameValues(p, q);
    SamePairsSameSortedNames(p, q);
    var names := SortNames(Names(p));
    assert Segments(p, names) == Segments(q, names);
  }

  // ---------------------------------------------------------------------------
  // The query object of buildRequestUrl: `{...params, appid: API_KEY, units: 'metric'}`

  /** Names and lookups on an object with one property put in front of the others. */
  lemma ConsParam(x: Param, rest: seq<Param>)
    ensures Names([x] + rest) == [x.name] + Names(rest)
    ensures forall n :: ValueOf([x] + rest, n) == if x.name == n then Some(x.value) else ValueOf(rest, n)
  {
    assert ([x] + rest)[1..] == rest;
  }

  /** `obj[name] = value` on a copy: an existing property keeps its place, a new one goes last. */
  function Assign(p: seq<Param>, name: string, value: string): (r: seq<Param>)
    ensures Names(r) == if name in Names(p) then Names(p) else Names(p) + [name]
    ensures ValueOf(r, name) == Some(value)
    ensures forall other :: other != name ==> ValueOf(r, other) == ValueOf(p, other)
  {
    if p == [] then
      ConsParam(Param(name, value), []);
      [Param(name, value)]
    else
      ConsParam(p[0], p[1..]);
      assert [p[0]] + p[1..] == p;
      if p[0].name == name then
        ConsParam(Param(name, value), p[1..]);
        assert name in Names(p);
        [Param(name, value)] + p[1..]
      else
        var rest := Assign(p[1..], name, value);
        ConsParam(p[0], rest);
        assert Names([p[0]] + rest) == if name in Names(p) then Names(p) else Names(p) + [name] by {
          if name in Names(p[1..]) {
            assert name in Names(p);
          } else {
            assert name !in Names(p);
            assert Names(p) + [name] == [p[0].name] + (Names(p[1..]) + [name]);
          }
        }
        [p[0]] + rest
  }

  /** Assigning keeps every existing property in its place, adds at most one, and never
      introduces a duplicate name. */
  lemma AssignShape(p: seq<Param>, name: string, value: string)
    ensures var r := Assign(p, name, value);
      && |p| <= |r| <= |p| + 1
      && (forall i :: 0 <= i < |p| ==> r[i].name == p[i].name)
      && (DistinctNames(p) ==> DistinctNames(r))
  {
    var r := Assign(p, name, value);
    var n := Names(p);
    assert Names(r) == if name in n then n else n + [name];
    forall i | 0 <= i < |p| ensures r[i].name == p[i].name {
      assert Names(r)[i] == n[i];
    }
    if DistinctNames(p) && name !in n {
      forall i, j | 0 <= i < j < |n + [name]| ensures (n + [name])[i] != (n + [name])[j] {
        if j == |n| {
          assert (n + [name])[i] == n[i];
        }
      }
    }
  }

  /** The query parameters actually sent: the caller's, then `appid` and `units` forced.
      The caller's properties keep their places; the forced ones that were missing are
      added after them. */
  function MergeParams(p: seq<Param>, apiKey: string): (r: seq<Param>)
    ensures ValueOf(r, "appid") == Some(apiKey)
    ensures ValueOf(r, "units") == Some("metric")
    ensures forall other :: other != "appid" && other != "units" ==> ValueOf(r, other) == ValueOf(p, other)
    ensures |p| <= |r| <= |p| + 2
    ensures forall i :: 0 <= i < |p| ==> r[i].name == p[i].name
    ensures DistinctNames(p) ==> DistinctNames(r)
  {
    var withKey := Assign(p, "appid", apiKey);
    AssignShape(p, "appid", apiKey);
    AssignShape(withKey, "units", "metric");
    Assign(withKey, "units", "metric")
  }
}
