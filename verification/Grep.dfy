/** The pattern matcher of grep, against the language of the pattern. A C string is a
    sequence; its terminating NUL is the end of the sequence. */
module Grep {
  /** A pattern is a list of single characters and starred characters, perhaps bound to
      the end of the text by a last bare '$'. */
  datatype Atom = One(c: char) | Star(c: char)

  function Atoms(re: string): (r: seq<Atom>)
    decreases |re|
  {
    if |re| == 0 || re == "$" then []
    else if |re| >= 2 && re[1] == '*' then [Star(re[0])] + Atoms(re[2..])
    else [One(re[0])] + Atoms(re[1..])
  }

  predicate Anchored(re: string)
    decreases |re|
  {
    if |re| == 0 then false
    else if re == "$" then true
    else if |re| >= 2 && re[1] == '*' then Anchored(re[2..])
    else Anchored(re[1..])
  }

  predicate CharIn(c: char, x: char) {
    c == '.' || c == x
  }

  /** The words of one atom. */
  ghost predicate InAtom(a: Atom, s: string) {
    match a
    case One(c) => |s| == 1 && CharIn(c, s[0])
    case Star(c) => forall i :: 0 <= i < |s| ==> CharIn(c, s[i])
  }

  /** The language of a list of atoms: concatenations of their words. */
  ghost predicate InLanguage(atoms: seq<Atom>, s: string) {
    if atoms == [] then s == []
    else exists k :: 0 <= k <= |s| && InAtom(atoms[0], s[..k]) && InLanguage(atoms[1..], s[k..])
  }

  /** text[..k] is a word of re that ends where re asks for it. */
  ghost predicate EndsAt(re: string, text: string, k: nat) {
    k <= |text| && (Anchored(re) ==> k == |text|) && InLanguage(Atoms(re), text[..k])
  }

  /** re matches at the start of text. */
  ghost predicate Accepts(re: string, text: string) {
    exists k: nat :: EndsAt(re, text, k)
  }

  lemma EmptyAccepts(text: string)
    ensures Accepts("", text)
  {
    assert EndsAt("", text, 0);
  }

  lemma DollarAccepts(text: string)
    ensures Accepts("$", text) <==> text == ""
  {
    assert text == "" ==> EndsAt("$", text, 0);
  }

  /** A leading single character takes one character of the text. */
  lemma OneAccepts(re: string, text: string)
    requires |re| > 0 && re != "$" && !(|re| >= 2 && re[1] == '*')
    ensures Accepts(re, text) <==> |text| > 0 && CharIn(re[0], text[0]) && Accepts(re[1..], text[1..])
  {
    var rest := Atoms(re[1..]);
    assert Atoms(re) == [One(re[0])] + rest && Atoms(re)[1..] == rest;
    if Accepts(re, text) {
      var n: nat :| EndsAt(re, text, n);
      var s := text[..n];
      var k :| 0 <= k <= |s| && InAtom(One(re[0]), s[..k]) && InLanguage(rest, s[k..]);
      assert k == 1 && s[1..] == text[1..][..n - 1];
      assert EndsAt(re[1..], text[1..], n - 1);
    }
    if |text| > 0 && CharIn(re[0], text[0]) && Accepts(re[1..], text[1..]) {
      var n: nat :| EndsAt(re[1..], text[1..], n);
      var s := text[..n + 1];
      assert s[..1] == [text[0]] && s[1..] == text[1..][..n];
      assert InAtom(Atoms(re)[0], s[..1]) && InLanguage(Atoms(re)[1..], s[1..]);
      assert EndsAt(re, text, n + 1);
    }
  }

  /** c may take the first k characters of text, and re matches after them. */
  ghost predicate StarAt(c: char, re: string, text: string, k: nat) {
    k <= |text| && (forall i :: 0 <= i < k ==> CharIn(c, text[i])) && Accepts(re, text[k..])
  }

  /** A starred character takes any run of its characters. */
  lemma StarAccepts(re: string, text: string)
    requires |re| >= 2 && re[1] == '*'
    ensures Accepts(re, text) <==> exists k: nat :: StarAt(re[0], re[2..], text, k)
  {
    var rest := Atoms(re[2..]);
    assert Atoms(re) == [Star(re[0])] + rest && Atoms(re)[1..] == rest;
    if Accepts(re, text) {
      var n: nat :| EndsAt(re, text, n);
      var s := text[..n];
      var k :| 0 <= k <= |s| && InAtom(Star(re[0]), s[..k]) && InLanguage(rest, s[k..]);
      assert forall i :: 0 <= i < k ==> text[i] == s[..k][i];
      assert s[k..] == text[k..][..n - k];
      assert EndsAt(re[2..], text[k..], n - k);
      assert StarAt(re[0], re[2..], text, k);
    }
    if k: nat :| StarAt(re[0], re[2..], text, k) {
      var n: nat :| EndsAt(re[2..], text[k..], n);
      var s := text[..k + n];
      assert s[k..] == text[k..][..n] && s[..k] == text[..k];
      assert InAtom(Atoms(re)[0], s[..k]) && InLanguage(Atoms(re)[1..], s[k..]);
      assert EndsAt(re, text, k + n);
    }
  }

  /** match: a leading '^' binds the pattern to the start of the text, otherwise any
      start will do. */
  method Match(re: string, text: string) returns (found: bool)
    ensures found <==> if |re| > 0 && re[0] == '^' then Accepts(re[1..], text)
                       else exists j :: 0 <= j <= |text| && Accepts(re, text[j..])
  {
    if |re| > 0 && re[0] == '^' {
      found := MatchHere(re[1..], text);
      return;
    }
    var j := 0;
    while true
      invariant j <= |text| && forall i :: 0 <= i < j ==> !Accepts(re, text[i..])
      decreases |text| - j
    {
      found := MatchHere(re, text[j..]);
      if found {
        return;
      }
      if j == |text| {
        return;
      }
      j := j + 1;
    }
  }

  method MatchHere(re: string, text: string) returns (found: bool)
    ensures found <==> Accepts(re, text)
    decreases |re|, 0
  {
    if |re| == 0 {
      EmptyAccepts(text);
      return true;
    }
    if |re| > 1 && re[1] == '*' {
      StarAccepts(re, text);
      found := MatchStar(re[0], re[2..], text);
      return;
    }
    if re[0] == '$' && |re| == 1 {
      assert re == "$";
      DollarAccepts(text);
      return text == "";
    }
    OneAccepts(re, text);
    if text != "" && (re[0] == '.' || re[0] == text[0]) {
      found := MatchHere(re[1..], text[1..]);
      return;
    }
    return false;
  }

  method MatchStar(c: char, re: string, text: string) returns (found: bool)
    ensures found <==> exists k: nat :: StarAt(c, re, text, k)
    decreases |re|, 1
  {
    var j := 0;
    while true
      invariant j <= |text| && forall i :: 0 <= i < j ==> CharIn(c, text[i])
      invariant forall k: nat :: k < j ==> !StarAt(c, re, text, k)
      decreases |text| - j
    {
      found := MatchHere(re, text[j..]);
      assert found <==> StarAt(c, re, text, j);
      if found {
        return;
      }
      if j == |text| || !(text[j] == c || c == '.') {
        assert forall k: nat :: StarAt(c, re, text, k) ==> k <= j;
        return;
      }
      j := j + 1;
    }
  }
}
