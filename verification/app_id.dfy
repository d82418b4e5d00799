/**
 * Extraction of the numeric project number from a Google App Id of the form
 * `<prefix>:<project number>:<android|ios|web>:<hex hash>`.
 */
module AppId {
  import opened Options

  /** The fields of `s` between occurrences of `sep`; there is always at least one. */
  function Split(s: string, sep: char): (fields: seq<string>)
    ensures |fields| >= 1
  {
    if s == [] then [[]]
    else
      var rest := Split(s[1..], sep);
      if s[0] == sep then [[]] + rest
      else [[s[0]] + rest[0]] + rest[1..]
  }

  /** The inverse of `Split`: the fields glued back together with `sep`. */
  function Join(fields: seq<string>, sep: char): string
    requires |fields| >= 1
  {
    if |fields| == 1 then fields[0]
    else fields[0] + [sep] + Join(fields[1..], sep)
  }

  lemma JoinConsFirst(x: char, fields: seq<string>, sep: char)
    requires |fields| >= 1
    ensures Join([[x] + fields[0]] + fields[1..], sep) == [x] + Join(fields, sep)
  {
  }

  lemma {:induction false} JoinSplit(s: string, sep: char)
    ensures Join(Split(s, sep), sep) == s
    decreases |s|
  {
    if s != [] {
      var rest := Split(s[1..], sep);
      JoinSplit(s[1..], sep);
      if s[0] == sep {
        assert ([[]] + rest)[1..] == rest;
      } else {
        JoinConsFirst(s[0], rest, sep);
      }
      assert s == [s[0]] + s[1..];
    }
  }

  /** Splitting a separator-free string gives the string itself as the only field. */
  lemma {:induction false} SplitWithoutSeparator(s: string, sep: char)
    requires sep !in s
    ensures Split(s, sep) == [s]
    decreases |s|
  {
    if s != [] {
      assert s[0] != sep && sep !in s[1..];
      SplitWithoutSeparator(s[1..], sep);
      assert s == [s[0]] + s[1..];
    }
  }

  /** Splitting `p + [sep] + rest` stops at the separator right after `p` when `p` has none. */
  lemma {:induction false} SplitAfterPrefix(p: string, sep: char, rest: string)
    requires sep !in p
    ensures Split(p + [sep] + rest, sep) == [p] + Split(rest, sep)
    decreases |p|
  {
    var s := p + [sep] + rest;
    if p == [] {
      assert s[1..] == rest;
    } else {
      assert p[0] != sep && sep !in p[1..];
      assert s[1..] == p[1..] + [sep] + rest;
      SplitAfterPrefix(p[1..], sep, rest);
      assert [p[0]] + p[1..] == p;
    }
  }

  lemma {:induction false} SplitJoin(fields: seq<string>, sep: char)
    requires |fields| >= 1
    requires forall i :: 0 <= i < |fields| ==> sep !in fields[i]
    ensures Split(Join(fields, sep), sep) == fields
    decreases |fields|
  {
    if |fields| == 1 {
      SplitWithoutSeparator(fields[0], sep);
    } else {
      SplitAfterPrefix(fields[0], sep, Join(fields[1..], sep));
      SplitJoin(fields[1..], sep);
      assert fields == [fields[0]] + fields[1..];
    }
  }

  /** No field of a split contains the separator. */
  lemma {:induction false} SplitFieldsHaveNoSeparator(s: string, sep: char)
    ensures forall i :: 0 <= i < |Split(s, sep)| ==> sep !in Split(s, sep)[i]
    decreases |s|
  {
    if s != [] {
      SplitFieldsHaveNoSeparator(s[1..], sep);
    }
  }

  predicate IsDigit(c: char) {
    '0' <= c <= '9'
  }

  predicate IsLowerHexDigit(c: char) {
    IsDigit(c) || 'a' <= c <= 'f'
  }

  /** `[0-9]+` */
  predicate IsNumeral(s: string) {
    |s| > 0 && forall i :: 0 <= i < |s| ==> IsDigit(s[i])
  }

  /** `[0-9a-f]+` */
  predicate IsLowerHex(s: string) {
    |s| > 0 && forall i :: 0 <= i < |s| ==> IsLowerHexDigit(s[i])
  }

  /** `android|ios|web` */
  predicate IsPlatform(s: string) {
    s == "android" || s == "ios" || s == "web"
  }

  /**
   * The App Id pattern `[^:]+:([0-9]+):(android|ios|web):([0-9a-f]+)` matched
   * against the whole of `id`, with its three separating colons at `a`, `b` and `c`.
   */
  ghost predicate MatchesAt(id: string, a: int, b: int, c: int) {
    && 0 < a < b < c < |id|
    && id[a] == ':' && id[b] == ':' && id[c] == ':'
    && ':' !in id[..a]
    && IsNumeral(id[a + 1..b])
    && IsPlatform(id[b + 1..c])
    && IsLowerHex(id[c + 1..])
  }

  ghost predicate MatchesAppIdPattern(id: string) {
    exists a, b, c :: MatchesAt(id, a, b, c)
  }

  /** Returns the project number (the second field) when the whole id matches the pattern. */
  function ExtractProjectNumber(appId: string): (r: Option<string>)
    ensures r.Some? ==> IsNumeral(r.value) && ':' !in r.value
  {
    var f := Split(appId, ':');
    if |f| == 4 && |f[0]| > 0 && IsNumeral(f[1]) && IsPlatform(f[2]) && IsLowerHex(f[3])
    then Some(f[1])
    else None
  }

  lemma NoColonInField(s: string)
    requires IsNumeral(s) || IsLowerHex(s) || IsPlatform(s)
    ensures ':' !in s
  {
  }

  lemma JoinFour(f0: string, f1: string, f2: string, f3: string, sep: char)
    ensures Join([f0, f1, f2, f3], sep) == f0 + [sep] + (f1 + [sep] + (f2 + [sep] + f3))
  {
    var fields := [f0, f1, f2, f3];
    assert fields[1..] == [f1, f2, f3] && fields[1..][1..] == [f2, f3] && fields[1..][1..][1..] == [f3];
    assert Join([f2, f3], sep) == f2 + [sep] + f3;
    assert Join([f1, f2, f3], sep) == f1 + [sep] + (f2 + [sep] + f3);
  }

  /** Four separator-free fields joined by the separator split back into those fields. */
  lemma SplitFourFields(f0: string, f1: string, f2: string, f3: string, sep: char)
    requires sep !in f0 && sep !in f1 && sep !in f2 && sep !in f3
    ensures Split(f0 + [sep] + (f1 + [sep] + (f2 + [sep] + f3)), sep) == [f0, f1, f2, f3]
  {
    SplitJoin([f0, f1, f2, f3], sep);
    JoinFour(f0, f1, f2, f3, sep);
  }

  /** A matching id splits at exactly its three colons. */
  lemma SplitOfMatch(id: string, a: int, b: int, c: int)
    requires MatchesAt(id, a, b, c)
    ensures Split(id, ':') == [id[..a], id[a + 1..b], id[b + 1..c], id[c + 1..]]
  {
    var f0, f1, f2, f3 := id[..a], id[a + 1..b], id[b + 1..c], id[c + 1..];
    NoColonInField(f1);
    NoColonInField(f2);
    NoColonInField(f3);
    assert id == f0 + [':'] + (f1 + [':'] + (f2 + [':'] + f3));
    SplitFourFields(f0, f1, f2, f3, ':');
  }

  /** A four-field split of an id places the fields between three colons. */
  lemma MatchOfSplit(id: string) returns (a: int, b: int, c: int)
    requires |Split(id, ':')| == 4
    ensures 0 <= a < b < c < |id|
    ensures id[a] == ':' && id[b] == ':' && id[c] == ':' && ':' !in id[..a]
    ensures Split(id, ':') == [id[..a], id[a + 1..b], id[b + 1..c], id[c + 1..]]
  {
    var f := Split(id, ':');
    assert f == [f[0], f[1], f[2], f[3]];
    JoinSplit(id, ':');
    JoinFour(f[0], f[1], f[2], f[3], ':');
    SplitFieldsHaveNoSeparator(id, ':');
    assert id == f[0] + [':'] + (f[1] + [':'] + (f[2] + [':'] + f[3]));
    a := |f[0]|;
    b := a + 1 + |f[1]|;
    c := b + 1 + |f[2]|;
    assert id[..a] == f[0];
    assert id[a + 1..b] == f[1];
    assert id[b + 1..c] == f[2];
    assert id[c + 1..] == f[3];
  }

  /**
   * The extraction succeeds exactly when the whole id matches the App Id
   * pattern, and then returns the digits between the first two colons.
   */
  lemma ExtractProjectNumberMatchesPattern(id: string)
    ensures ExtractProjectNumber(id).Some? <==> MatchesAppIdPattern(id)
    ensures forall a, b, c :: MatchesAt(id, a, b, c) ==> ExtractProjectNumber(id) == Some(id[a + 1..b])
  {
    forall a, b, c | MatchesAt(id, a, b, c)
      ensures ExtractProjectNumber(id) == Some(id[a + 1..b])
    {
      SplitOfMatch(id, a, b, c);
    }
    if ExtractProjectNumber(id).Some? {
      var a, b, c := MatchOfSplit(id);
      assert MatchesAt(id, a, b, c);
    }
  }
}
