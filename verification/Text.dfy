/** The few string operations of Go's `strings` package that the service's
    normalisation code is built from, with the laws the rest of the model needs. */
module Text {

  /** Go's `unicode.IsSpace`. */
  predicate IsSpace(c: char) {
    || '\t' <= c <= '\r'
    || c == ' ' || c == '\U{85}' || c == '\U{A0}' || c == '\U{1680}'
    || '\U{2000}' <= c <= '\U{200A}'
    || c == '\U{2028}' || c == '\U{2029}' || c == '\U{202F}' || c == '\U{205F}' || c == '\U{3000}'
  }

  /** The white space of Unicode. */
  lemma SpacesAre(c: char)
    ensures IsSpace(c) <==>
            c in "\t\n\U{0B}\U{0C}\r \U{85}\U{A0}\U{1680}\U{2000}\U{2001}\U{2002}\U{2003}\U{2004}\U{2005}\U{2006}\U{2007}\U{2008}\U{2009}\U{200A}\U{2028}\U{2029}\U{202F}\U{205F}\U{3000}"
  {
  }

  ghost predicate Blank(s: string) {
    forall i :: 0 <= i < |s| ==> IsSpace(s[i])
  }

  function TrimLeft(s: string): string {
    if s != [] && IsSpace(s[0]) then TrimLeft(s[1..]) else s
  }

  function TrimRight(s: string): string {
    if s != [] && IsSpace(s[|s| - 1]) then TrimRight(s[..|s| - 1]) else s
  }

  /** `strings.TrimSpace`. */
  function TrimSpace(s: string): string {
    TrimRight(TrimLeft(s))
  }

  ghost predicate Trimmed(s: string) {
    s != [] ==> !IsSpace(s[0]) && !IsSpace(s[|s| - 1])
  }

  lemma {:induction false} TrimLeftCuts(s: string) returns (k: nat)
    ensures k <= |s| && TrimLeft(s) == s[k..] && Blank(s[..k])
    ensures TrimLeft(s) != [] ==> !IsSpace(TrimLeft(s)[0])
  {
    if s != [] && IsSpace(s[0]) {
      var j := TrimLeftCuts(s[1..]);
      k := j + 1;
      assert s[1..][j..] == s[k..];
      assert forall i :: 0 < i < k ==> s[i] == s[1..][..j][i - 1];
    } else {
      k := 0;
    }
  }

  lemma {:induction false} TrimRightCuts(s: string) returns (k: nat)
    ensures k <= |s| && TrimRight(s) == s[..k] && Blank(s[k..])
    ensures TrimRight(s) != [] ==> !IsSpace(TrimRight(s)[|TrimRight(s)| - 1])
  {
    if s != [] && IsSpace(s[|s| - 1]) {
      k := TrimRightCuts(s[..|s| - 1]);
      assert s[..|s| - 1][..k] == s[..k];
      assert forall i :: 0 <= i < |s| - 1 - k ==> s[k..][i] == s[..|s| - 1][k..][i];
    } else {
      k := |s|;
      assert s[..k] == s;
    }
  }

  /** Trimming removes a blank prefix and a blank suffix, and leaves no blank at either end. */
  lemma TrimSpaceCuts(s: string) returns (i: nat, j: nat)
    ensures i <= j <= |s| && TrimSpace(s) == s[i..j]
    ensures Blank(s[..i]) && Blank(s[j..]) && Trimmed(TrimSpace(s))
  {
    i := TrimLeftCuts(s);
    var k := TrimRightCuts(s[i..]);
    j := i + k;
    assert s[i..][..k] == s[i..j];
    assert s[i..][k..] == s[j..];
    if k > 0 {
      assert TrimSpace(s)[0] == TrimLeft(s)[0];
    }
  }

  lemma TrimmedIsFixed(s: string)
    requires Trimmed(s)
    ensures TrimSpace(s) == s
  {
  }

  lemma TrimSpaceIdempotent(s: string)
    ensures TrimSpace(TrimSpace(s)) == TrimSpace(s)
  {
    var _, _ := TrimSpaceCuts(s);
    TrimmedIsFixed(TrimSpace(s));
  }

  /** Length of the longest space-free prefix. */
  function WordLen(s: string): (n: nat)
    ensures n <= |s|
    ensures n == 0 <==> s == [] || IsSpace(s[0])
    ensures forall i :: 0 <= i < n ==> !IsSpace(s[i])
    ensures n < |s| ==> IsSpace(s[n])
  {
    if s == [] || IsSpace(s[0]) then 0 else 1 + WordLen(s[1..])
  }

  /** `strings.Fields`: the maximal space-free runs, in order. */
  function Fields(s: string): seq<string>
    decreases |s|
  {
    if s == [] then []
    else if IsSpace(s[0]) then Fields(s[1..])
    else [s[..WordLen(s)]] + Fields(s[WordLen(s)..])
  }

  /** `strings.Join`. */
  function Join(parts: seq<string>, sep: string): string {
    if parts == [] then []
    else if |parts| == 1 then parts[0]
    else parts[0] + sep + Join(parts[1..], sep)
  }

  ghost predicate Word(w: string) {
    w != [] && forall i :: 0 <= i < |w| ==> !IsSpace(w[i])
  }

  ghost predicate Words(ws: seq<string>) {
    forall i :: 0 <= i < |ws| ==> Word(ws[i])
  }

  lemma {:induction false} FieldsAreWords(s: string)
    ensures Words(Fields(s))
    decreases |s|
  {
    if s == [] {
    } else if IsSpace(s[0]) {
      FieldsAreWords(s[1..]);
    } else {
      FieldsAreWords(s[WordLen(s)..]);
      assert Word(s[..WordLen(s)]);
    }
  }

  lemma {:induction false} WordLenAppend(s: string, t: string)
    requires t != [] ==> IsSpace(t[0])
    ensures WordLen(s + t) == WordLen(s)
  {
    if s == [] {
      assert s + t == t;
    } else if IsSpace(s[0]) {
    } else {
      assert (s + t)[1..] == s[1..] + t;
      WordLenAppend(s[1..], t);
    }
  }

  /** Splitting a text at a space splits its word list. */
  lemma {:induction false} FieldsAppend(s: string, t: string)
    requires t != [] ==> IsSpace(t[0])
    ensures Fields(s + t) == Fields(s) + Fields(t)
    decreases |s|
  {
    if s == [] {
      assert s + t == t;
    } else if IsSpace(s[0]) {
      assert (s + t)[1..] == s[1..] + t;
      FieldsAppend(s[1..], t);
    } else {
      var n := WordLen(s);
      WordLenAppend(s, t);
      assert (s + t)[..n] == s[..n];
      assert (s + t)[n..] == s[n..] + t;
      FieldsAppend(s[n..], t);
    }
  }

  lemma {:induction false} FieldsOfBlank(s: string)
    requires Blank(s)
    ensures Fields(s) == []
  {
    if s != [] {
      assert forall i :: 0 <= i < |s| - 1 ==> s[1..][i] == s[i + 1];
      FieldsOfBlank(s[1..]);
    }
  }

  lemma {:induction false} FieldsSkipBlankPrefix(b: string, s: string)
    requires Blank(b)
    ensures Fields(b + s) == Fields(s)
    decreases |b|
  {
    if b == [] {
      assert b + s == s;
    } else {
      assert forall i :: 0 <= i < |b| - 1 ==> b[1..][i] == b[i + 1];
      assert (b + s)[1..] == b[1..] + s;
      FieldsSkipBlankPrefix(b[1..], s);
    }
  }

  lemma FieldsOfTrim(s: string)
    ensures Fields(TrimSpace(s)) == Fields(s)
  {
    var i, j := TrimSpaceCuts(s);
    assert s == s[..i] + (s[i..j] + s[j..]);
    FieldsSkipBlankPrefix(s[..i], s[i..j] + s[j..]);
    FieldsAppend(s[i..j], s[j..]);
    FieldsOfBlank(s[j..]);
  }

  lemma FieldsOfWord(w: string)
    requires Word(w)
    ensures Fields(w) == [w]
  {
    var n := WordLen(w);
    assert n == |w|;
    assert w[..n] == w && w[n..] == [];
  }

  function Flatten(parts: seq<string>): seq<string> {
    if parts == [] then [] else Fields(parts[0]) + Flatten(parts[1..])
  }

  /** Joining texts with one space concatenates their word lists. */
  lemma {:induction false} FieldsOfJoin(parts: seq<string>)
    ensures Fields(Join(parts, " ")) == Flatten(parts)
  {
    if |parts| == 0 {
    } else if |parts| == 1 {
      assert Flatten(parts[1..]) == [];
    } else {
      var rest := Join(parts[1..], " ");
      FieldsOfJoin(parts[1..]);
      assert Join(parts, " ") == parts[0] + (" " + rest);
      FieldsAppend(parts[0], " " + rest);
      FieldsSkipBlankPrefix(" ", rest);
    }
  }

  lemma {:induction false} FlattenOfWords(ws: seq<string>)
    requires Words(ws)
    ensures Flatten(ws) == ws
  {
    if ws != [] {
      FieldsOfWord(ws[0]);
      FlattenOfWords(ws[1..]);
    }
  }

  lemma {:induction false} FlattenAppend(a: seq<string>, b: seq<string>)
    ensures Flatten(a + b) == Flatten(a) + Flatten(b)
  {
    if a == [] {
      assert a + b == b;
    } else {
      assert (a + b)[1..] == a[1..] + b;
      FlattenAppend(a[1..], b);
    }
  }
}
