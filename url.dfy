/** The part of a parsed URL that the crawler front end reads: its host, its
    pathname and its decoded query pairs, together with the two string
    operations it applies to them, `String.prototype.split('/')` and
    `String.prototype.includes`, and `URLSearchParams.get`. The URL parser
    itself is not part of this module: callers receive an already parsed
    `Url`, or `None` where parsing throws. */
module Url {
  import opened Optional

  /** What `new URL(s)` exposes to the crawler: `host` (with its port, if any),
      `pathname`, and the name/value pairs of `searchParams`, decoded and in
      the order they occur in the query string. */
  datatype Url = Url(host: string, pathname: string, query: seq<(string, string)>)

  // ---------------------------------------------------------------------------
  // pathname.split('/')
  // ---------------------------------------------------------------------------

  /** `s.split('/')`: the pieces of `s` between consecutive slashes. There is
      always at least one piece, even for the empty string. */
  function Split(s: string): (parts: seq<string>)
    ensures |parts| >= 1
    decreases |s|
  {
    if s == [] then [""]
    else if s[0] == '/' then [""] + Split(s[1..])
    else
      var rest := Split(s[1..]);
      [[s[0]] + rest[0]] + rest[1..]
  }

  /** `parts.join('/')`, the inverse of `Split`. */
  function Join(parts: seq<string>): (s: string)
    requires |parts| >= 1
    decreases |parts|
  {
    if |parts| == 1 then parts[0] else parts[0] + "/" + Join(parts[1..])
  }

  /** The number of slashes in `s`. */
  function Slashes(s: string): nat
    decreases |s|
  {
    if s == [] then 0 else (if s[0] == '/' then 1 else 0) + Slashes(s[1..])
  }

  /** Splitting loses nothing: joining the pieces back with '/' gives the
      original string, no piece holds a slash, and there is one piece more
      than there are slashes. Together these determine `Split` uniquely. */
  lemma {:induction false} SplitJoin(s: string)
    ensures Join(Split(s)) == s
    ensures forall k :: 0 <= k < |Split(s)| ==> '/' !in Split(s)[k]
    ensures |Split(s)| == Slashes(s) + 1
    decreases |s|
  {
    if s == [] {
    } else if s[0] == '/' {
      SplitJoin(s[1..]);
      assert Split(s) == [""] + Split(s[1..]);
      assert Split(s)[1..] == Split(s[1..]);
      assert s == "" + "/" + s[1..];
    } else {
      SplitJoin(s[1..]);
      var rest := Split(s[1..]);
      var parts := Split(s);
      assert parts == [[s[0]] + rest[0]] + rest[1..];
      forall k | 0 <= k < |parts| ensures '/' !in parts[k] {
        if k == 0 {
          assert '/' !in rest[0];
        } else {
          assert parts[k] == rest[k];
        }
      }
      if |rest| == 1 {
        assert Join(parts) == [s[0]] + rest[0];
        assert Join(rest) == rest[0];
      } else {
        assert parts[1..] == rest[1..];
        assert Join(rest) == rest[0] + "/" + Join(rest[1..]);
        assert Join(parts) == ([s[0]] + rest[0]) + "/" + Join(rest[1..]);
      }
      assert s == [s[0]] + s[1..];
    }
  }

  /** Splitting a string that begins with '/' (the pathname of every http or
      https URL does) yields the empty string first, so the first path
      component is piece 1. */
  lemma SplitLeadingSlash(rest: string)
    ensures Split("/" + rest) == [""] + Split(rest)
  {
    assert ("/" + rest)[1..] == rest;
  }

  /** A string without a slash splits into itself alone. */
  lemma {:induction false} SplitNoSlash(s: string)
    requires '/' !in s
    ensures Split(s) == [s]
    decreases |s|
  {
    if s != [] {
      SplitNoSlash(s[1..]);
      assert [s[0]] + s[1..] == s;
    }
  }

  /** A slash-free prefix followed by '/' is split off as the first piece. */
  lemma {:induction false} SplitFirstPiece(a: string, b: string)
    requires '/' !in a
    ensures Split(a + "/" + b) == [a] + Split(b)
    decreases |a|
  {
    if a == [] {
      assert a + "/" + b == "/" + b;
      SplitLeadingSlash(b);
    } else {
      SplitFirstPiece(a[1..], b);
      assert (a + "/" + b)[1..] == a[1..] + "/" + b;
      assert [a[0]] + a[1..] == a;
    }
  }

  /** A rooted path of two slash-free pieces splits into the empty string
      and those pieces. */
  lemma SplitTwoPieces(a: string, b: string)
    requires '/' !in a && '/' !in b
    ensures Split("/" + a + "/" + b) == ["", a, b]
  {
    assert "/" + a + "/" + b == "/" + (a + "/" + b);
    SplitLeadingSlash(a + "/" + b);
    SplitFirstPiece(a, b);
    SplitNoSlash(b);
  }

  // ---------------------------------------------------------------------------
  // host.includes(token)
  // ---------------------------------------------------------------------------

  /** `p` occurs in `s` starting at position `i`. */
  predicate OccursAt(s: string, p: string, i: int)
  {
    0 <= i && i + |p| <= |s| && s[i..i + |p|] == p
  }

  /** `s.includes(p)`, computed by trying every starting position in turn. */
  predicate Includes(s: string, p: string)
    decreases |s|
  {
    p <= s || (s != [] && Includes(s[1..], p))
  }

  /** `Includes` is substring containment: it holds exactly when `p` occurs in
      `s` at some position. */
  lemma {:induction false} IncludesIffOccurs(s: string, p: string)
    ensures Includes(s, p) <==> exists i :: OccursAt(s, p, i)
    decreases |s|
  {
    if p <= s {
      assert OccursAt(s, p, 0);
    } else if s == [] {
    } else {
      IncludesIffOccurs(s[1..], p);
      if exists i :: OccursAt(s[1..], p, i) {
        var i :| OccursAt(s[1..], p, i);
        assert s[1..][i..i + |p|] == s[i + 1..i + 1 + |p|];
        assert OccursAt(s, p, i + 1);
      }
      if exists i :: OccursAt(s, p, i) {
        var i :| OccursAt(s, p, i);
        assert i != 0 by { assert s[..|p|] == s[0..0 + |p|]; }
        assert s[1..][i - 1..i - 1 + |p|] == s[i..i + |p|];
        assert OccursAt(s[1..], p, i - 1);
      }
    }
  }

  // ---------------------------------------------------------------------------
  // searchParams.get(name)
  // ---------------------------------------------------------------------------

  /** `searchParams.get(name)`: the value of the first pair named `name`, or
      `None` (JavaScript `null`) when no pair has that name. */
  function QueryGet(query: seq<(string, string)>, name: string): Option<string>
    decreases |query|
  {
    if query == [] then None
    else if query[0].0 == name then Some(query[0].1)
    else QueryGet(query[1..], name)
  }

  /** Position `i` holds the first pair named `name`. */
  predicate FirstNamed(query: seq<(string, string)>, name: string, i: int)
  {
    0 <= i < |query| && query[i].0 == name
    && forall j :: 0 <= j < i ==> query[j].0 != name
  }

  /** `QueryGet` returns `null` exactly when no pair carries the name, and
      otherwise the value of the earliest pair that does (later duplicates
      are ignored). */
  lemma {:induction false} QueryGetFirst(query: seq<(string, string)>, name: string)
    ensures QueryGet(query, name).None? <==> forall j :: 0 <= j < |query| ==> query[j].0 != name
    ensures forall i :: FirstNamed(query, name, i) ==> QueryGet(query, name) == Some(query[i].1)
    decreases |query|
  {
    if query != [] && query[0].0 != name {
      QueryGetFirst(query[1..], name);
      forall i | FirstNamed(query, name, i) ensures QueryGet(query, name) == Some(query[i].1) {
        assert FirstNamed(query[1..], name, i - 1);
      }
      if forall j :: 0 <= j < |query[1..]| ==> query[1..][j].0 != name {
        forall j | 0 <= j < |query| ensures query[j].0 != name {
          if j > 0 { assert query[j] == query[1..][j - 1]; }
        }
      }
    }
  }
}
