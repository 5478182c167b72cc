/** The cookie filter: of the client's Cookie header, only the pairs whose name starts with
    `wwwhisper-` are forwarded to the auth backend, in their original order, joined by "; ".
    Application session cookies never reach the backend. */
module Cookies {
  import opened Text

  const AuthCookiePrefix := "wwwhisper-"
  const PairSeparator := "; "

  /** A `name=value` pair that belongs to the auth backend. */
  predicate IsAuthCookie(pair: string) {
    StartsWith(pair, AuthCookiePrefix)
  }

  /** Length of the first field of `s`, i.e. of everything before the first ';'. */
  function FieldLength(s: string): (n: nat)
    ensures n <= |s|
    ensures forall k :: 0 <= k < n ==> s[k] != ';'
    ensures n < |s| ==> s[n] == ';'
  {
    if |s| == 0 || s[0] == ';' then 0 else 1 + FieldLength(s[1..])
  }

  /** `parts` joined with `sep` between consecutive parts. */
  function Join(parts: seq<string>, sep: string): string {
    if |parts| == 0 then ""
    else if |parts| == 1 then parts[0]
    else parts[0] + sep + Join(parts[1..], sep)
  }

  /** The ';'-delimited fields of `s`. Joining them back with ';' gives `s` again. */
  function Split(s: string): (fields: seq<string>)
    ensures |fields| >= 1
    ensures forall f :: f in fields ==> ';' !in f
    ensures Join(fields, ";") == s
    decreases |s|
  {
    var n := FieldLength(s);
    if n == |s| then
      [s]
    else
      var rest := Split(s[n + 1..]);
      assert ([s[..n]] + rest)[1..] == rest;
      assert s == s[..n] + ";" + s[n + 1..];
      [s[..n]] + rest
  }

  /** `s` without its leading spaces. */
  function TrimStart(s: string): (t: string)
    ensures |t| <= |s| && t == s[|s| - |t|..]
    ensures forall k :: 0 <= k < |s| - |t| ==> s[k] == ' '
    ensures t == "" || t[0] != ' '
  {
    if |s| > 0 && s[0] == ' ' then TrimStart(s[1..]) else s
  }

  /** Every field with its leading spaces removed. */
  function TrimEach(fields: seq<string>): (pairs: seq<string>)
    ensures |pairs| == |fields|
    ensures forall i :: 0 <= i < |fields| ==> pairs[i] == TrimStart(fields[i])
    ensures forall i :: 0 <= i < |fields| && ';' !in fields[i] ==> ';' !in pairs[i]
  {
    if fields == [] then []
    else
      var t := TrimStart(fields[0]);
      assert forall c :: c in t ==> c in fields[0];
      [t] + TrimEach(fields[1..])
  }

  /** The pairs of a Cookie header, in order. */
  function Pairs(header: string): (pairs: seq<string>)
    ensures |pairs| == |Split(header)| >= 1
    ensures forall i :: 0 <= i < |pairs| ==> pairs[i] == TrimStart(Split(header)[i])
    ensures forall p :: p in pairs ==> ';' !in p
  {
    var fields := Split(header);
    var pairs := TrimEach(fields);
    assert forall i :: 0 <= i < |pairs| ==> fields[i] in fields;
    pairs
  }

  /** The auth pairs among `pairs`, in their original order. */
  function Keep(pairs: seq<string>): (kept: seq<string>)
    ensures |kept| <= |pairs|
    ensures forall p :: p in kept <==> p in pairs && IsAuthCookie(p)
  {
    if pairs == [] then []
    else if IsAuthCookie(pairs[0]) then [pairs[0]] + Keep(pairs[1..])
    else Keep(pairs[1..])
  }

  /** The Cookie header forwarded to the auth backend: it carries exactly the auth pairs of the
      client's header, in order, and no other pair. */
  function Filter(header: string): (forwarded: string)
    ensures Keep(Pairs(forwarded)) == Keep(Pairs(header))
    ensures forwarded == "" || forall p :: p in Pairs(forwarded) ==> IsAuthCookie(p)
  {
    AuthPairsRoundTrip(Keep(Pairs(header)));
    Join(Keep(Pairs(header)), PairSeparator)
  }

  /** A request without cookies forwards none. */
  lemma FilterEmpty()
    ensures Filter("") == ""
  {
    assert Split("") == [""];
    assert TrimEach([""]) == [""];
    assert Keep([""]) == [];
  }

  /** Keep works pair by pair, so it keeps the order of the header. */
  lemma {:induction false} KeepConcat(a: seq<string>, b: seq<string>)
    ensures Keep(a + b) == Keep(a) + Keep(b)
  {
    if a == [] {
      assert a + b == b;
    } else {
      assert (a + b)[0] == a[0];
      assert (a + b)[1..] == a[1..] + b;
      KeepConcat(a[1..], b);
    }
  }

  /** A list made only of auth pairs is kept whole. */
  lemma {:induction false} KeepAll(pairs: seq<string>)
    requires forall p :: p in pairs ==> IsAuthCookie(p)
    ensures Keep(pairs) == pairs
  {
    if pairs != [] {
      assert forall p :: p in pairs[1..] ==> p in pairs;
      KeepAll(pairs[1..]);
    }
  }

  /** A leading space is absorbed by the first field of a split. */
  lemma SplitAfterSpace(t: string)
    ensures Split(" " + t) == [" " + Split(t)[0]] + Split(t)[1..]
  {
    var s := " " + t;
    assert s[1..] == t;
    var n := FieldLength(t);
    assert FieldLength(s) == 1 + n;
    if n < |t| {
      assert s[..n + 1] == " " + t[..n];
      assert s[n + 2..] == t[n + 1..];
    }
  }

  /** A field without ';' is split into itself. */
  lemma SplitField(p: string)
    requires ';' !in p
    ensures Split(p) == [p]
  {
    assert forall k :: 0 <= k < |p| ==> p[k] in p;
  }

  /** A field followed by ';' is split off first. */
  lemma SplitFirst(p: string, rest: string)
    requires ';' !in p
    ensures Split(p + ";" + rest) == [p] + Split(rest)
  {
    var s := p + ";" + rest;
    assert forall k :: 0 <= k < |p| ==> s[k] == p[k] && p[k] in p;
    assert s[|p|] == ';';
    assert FieldLength(s) == |p|;
    assert s[..|p|] == p;
    assert s[|p| + 1..] == rest;
  }

  lemma TrimEachCons(first: string, rest: seq<string>)
    ensures TrimEach([first] + rest) == [TrimStart(first)] + TrimEach(rest)
  {
    assert ([first] + rest)[1..] == rest;
  }

  /** A space after a separator does not change the parsed pairs. */
  lemma PairsAfterSpace(t: string)
    ensures Pairs(" " + t) == Pairs(t)
  {
    SplitAfterSpace(t);
    var fs := Split(t);
    assert fs == [fs[0]] + fs[1..];
    TrimEachCons(" " + fs[0], fs[1..]);
    TrimEachCons(fs[0], fs[1..]);
    assert TrimStart(" " + fs[0]) == TrimStart(fs[0]) by {
      assert (" " + fs[0])[1..] == fs[0];
    }
  }

  /** The first pair of "p;rest" is p without its leading spaces. */
  lemma PairsFirst(p: string, rest: string)
    requires ';' !in p
    ensures Pairs(p + ";" + rest) == [TrimStart(p)] + Pairs(rest)
  {
    SplitFirst(p, rest);
    TrimEachCons(p, Split(rest));
  }

  /** "p; rest" is p, the ';' and the space-led rest. */
  lemma JoinCons(parts: seq<string>)
    requires |parts| >= 2
    ensures Join(parts, PairSeparator) == parts[0] + ";" + (" " + Join(parts[1..], PairSeparator))
  {
    var j := Join(parts[1..], PairSeparator);
    assert Join(parts, PairSeparator) == parts[0] + PairSeparator + j;
    assert PairSeparator == ";" + " ";
    assert parts[0] + (";" + " ") + j == parts[0] + ";" + (" " + j);
  }

  /** Parsing a header that was serialized as "p1; p2; ...; pn" gives back p1 ... pn, provided
      no pair holds a ';' or starts with a space. */
  lemma {:induction false} PairsOfJoin(pairs: seq<string>)
    requires |pairs| >= 1
    requires forall p :: p in pairs ==> ';' !in p && (p == "" || p[0] != ' ')
    ensures Pairs(Join(pairs, PairSeparator)) == pairs
  {
    var p := pairs[0];
    assert p in pairs;
    assert TrimStart(p) == p;
    if |pairs| == 1 {
      SplitField(p);
      TrimEachCons(p, []);
      assert [p] + [] == [p];
    } else {
      var tail := pairs[1..];
      assert forall q :: q in tail ==> q in pairs;
      PairsOfJoin(tail);
      var j := Join(tail, PairSeparator);
      JoinCons(pairs);
      PairsFirst(p, " " + j);
      PairsAfterSpace(j);
      calc {
        Pairs(Join(pairs, PairSeparator));
        Pairs(p + ";" + (" " + j));
        [p] + Pairs(" " + j);
        [p] + Pairs(j);
        [p] + tail;
        pairs;
      }
    }
  }

  /** Auth pairs serialized with "; " parse back to themselves and are all kept. */
  lemma AuthPairsRoundTrip(kept: seq<string>)
    requires forall p :: p in kept ==> IsAuthCookie(p) && ';' !in p
    ensures Keep(Pairs(Join(kept, PairSeparator))) == kept
    ensures Join(kept, PairSeparator) == "" || forall p :: p in Pairs(Join(kept, PairSeparator)) ==> IsAuthCookie(p)
  {
    if kept == [] {
      assert Pairs("") == [""];
    } else {
      assert forall p :: p in kept ==> IsAuthCookie(p) && ';' !in p && p[0] == 'w';
      PairsOfJoin(kept);
      KeepAll(kept);
    }
  }

  /** Filtering the forwarded header again changes nothing. */
  lemma FilterIdempotent(header: string)
    ensures Filter(Filter(header)) == Filter(header)
  {
  }

  /** A header made only of auth pairs is forwarded unchanged. */
  lemma FilterFixesAuthOnlyHeader(pairs: seq<string>)
    requires forall p :: p in pairs ==> IsAuthCookie(p) && ';' !in p
    ensures Filter(Join(pairs, PairSeparator)) == Join(pairs, PairSeparator)
  {
    AuthPairsRoundTrip(pairs);
  }

  /** The steps below spell out the tests' literal headers piece by piece, so that the verifier
      never compares two long string literals character by character. */
  lemma JoinFour(a: string, b: string, c: string, d: string)
    ensures Join([a, b, c, d], PairSeparator) == a + "; " + b + "; " + c + "; " + d
  {
    assert [a, b, c, d][1..] == [b, c, d] && [b, c, d][1..] == [c, d] && [c, d][1..] == [d];
    JoinCons([a, b, c, d]);
    JoinCons([b, c, d]);
    JoinCons([c, d]);
  }

  lemma MixedPairsKept(a: string, b: string, c: string, d: string)
    requires !IsAuthCookie(a) && IsAuthCookie(b) && !IsAuthCookie(c) && IsAuthCookie(d)
    ensures Keep([a, b, c, d]) == [b, d]
  {
    assert [a, b, c, d][1..] == [b, c, d] && [b, c, d][1..] == [c, d] && [c, d][1..] == [d];
    assert [d][1..] == [];
    calc {
      Keep([a, b, c, d]);
      Keep([b, c, d]);
      [b] + Keep([c, d]);
      [b] + Keep([d]);
      [b] + ([d] + Keep([]));
      [b, d];
    }
  }

  /** The first half of the mixed header, assembled from its pairs. */
  lemma MixedHeaderHead()
    ensures "session=123" + "; " + "wwwhisper-auth=xyz" + "; " == "session=123; wwwhisper-auth=xyz; "
  {
    assert "session=123" + "; " == "session=123; ";
    assert "session=123; " + "wwwhisper-auth=xyz" == "session=123; wwwhisper-auth=xyz";
  }

  /** The second half of the mixed header, assembled from its pairs. */
  lemma MixedHeaderTail()
    ensures "settings=foobar" + "; " + "wwwhisper-csrftoken=abc" == "settings=foobar; wwwhisper-csrftoken=abc"
  {
    assert "settings=foobar" + "; " == "settings=foobar; ";
  }

  /** The mixed header as the test writes it, in two halves. */
  lemma MixedHeaderText()
    ensures "session=123" + "; " + "wwwhisper-auth=xyz" + "; " + "settings=foobar" + "; " + "wwwhisper-csrftoken=abc"
         == "session=123; wwwhisper-auth=xyz; " + "settings=foobar; wwwhisper-csrftoken=abc"
  {
    MixedHeaderHead();
    MixedHeaderTail();
    var a, b, c, d := "session=123", "wwwhisper-auth=xyz", "settings=foobar", "wwwhisper-csrftoken=abc";
    assert a + "; " + b + "; " + c + "; " + d == (a + "; " + b + "; ") + (c + "; " + d);
  }

  lemma MixedHeaderPairs(header: string)
    requires header == "session=123; wwwhisper-auth=xyz; " + "settings=foobar; wwwhisper-csrftoken=abc"
    ensures Pairs(header) == ["session=123", "wwwhisper-auth=xyz", "settings=foobar", "wwwhisper-csrftoken=abc"]
  {
    var a, b, c, d := "session=123", "wwwhisper-auth=xyz", "settings=foobar", "wwwhisper-csrftoken=abc";
    JoinFour(a, b, c, d);
    MixedHeaderText();
    assert ';' !in a && ';' !in b && ';' !in c && ';' !in d;
    PairsOfJoin([a, b, c, d]);
  }

  lemma MixedHeaderClassified()
    ensures !IsAuthCookie("session=123") && IsAuthCookie("wwwhisper-auth=xyz")
    ensures !IsAuthCookie("settings=foobar") && IsAuthCookie("wwwhisper-csrftoken=abc")
  {
    assert "session=123"[0] == 's' && "settings=foobar"[0] == 's';
  }

  lemma MixedHeaderKept(header: string)
    requires header == "session=123; wwwhisper-auth=xyz; " + "settings=foobar; wwwhisper-csrftoken=abc"
    ensures Keep(Pairs(header)) == ["wwwhisper-auth=xyz", "wwwhisper-csrftoken=abc"]
  {
    MixedHeaderPairs(header);
    MixedHeaderClassified();
    MixedPairsKept("session=123", "wwwhisper-auth=xyz", "settings=foobar", "wwwhisper-csrftoken=abc");
  }

  lemma AuthHeaderJoin(b: string, d: string)
    requires b == "wwwhisper-auth=xyz" && d == "wwwhisper-csrftoken=abc"
    ensures Join([b, d], PairSeparator) == "wwwhisper-auth=xyz; wwwhisper-csrftoken=abc"
  {
    JoinCons([b, d]);
    assert [b, d][1..] == [d];
    assert b + "; " + d == "wwwhisper-auth=xyz; wwwhisper-csrftoken=abc";
  }

  /** The header of the test that sends application cookies alongside the auth cookies: only
      the two auth cookies are forwarded. */
  lemma FilterDropsApplicationCookies(header: string)
    requires header == "session=123; wwwhisper-auth=xyz; " + "settings=foobar; wwwhisper-csrftoken=abc"
    ensures Filter(header) == "wwwhisper-auth=xyz; wwwhisper-csrftoken=abc"
  {
    MixedHeaderKept(header);
    AuthHeaderJoin("wwwhisper-auth=xyz", "wwwhisper-csrftoken=abc");
  }

  /** The header of the test that sends only auth cookies is forwarded as it is. */
  lemma FilterKeepsAuthOnlyHeader(header: string)
    requires header == "wwwhisper-auth=xyz; wwwhisper-csrftoken=abc"
    ensures Filter(header) == header
  {
    var b, d := "wwwhisper-auth=xyz", "wwwhisper-csrftoken=abc";
    AuthHeaderJoin(b, d);
    assert IsAuthCookie(b) && IsAuthCookie(d);
    assert ';' !in b && ';' !in d;
    FilterFixesAuthOnlyHeader([b, d]);
  }
}
