/** Strings with ASCII letter case, the only case rule header names and methods need here. */
module Text {

  function LowerChar(c: char): char {
    if 'A' <= c <= 'Z' then (c as int + 32) as char else c
  }

  function UpperChar(c: char): char {
    if 'a' <= c <= 'z' then (c as int - 32) as char else c
  }

  function Upper(s: string): string {
    seq(|s|, i requires 0 <= i < |s| => UpperChar(s[i]))
  }

  predicate EqIgnoreCase(a: string, b: string) {
    |a| == |b| && forall i :: 0 <= i < |a| ==> LowerChar(a[i]) == LowerChar(b[i])
  }

  predicate HasUpper(s: string) {
    exists i :: 0 <= i < |s| && 'A' <= s[i] <= 'Z'
  }

  lemma LowerCaseEquality(a: string, b: string)
    requires !HasUpper(a) && !HasUpper(b)
    ensures EqIgnoreCase(a, b) <==> a == b
  {
    if EqIgnoreCase(a, b) {
      forall i | 0 <= i < |a| ensures a[i] == b[i] {
        assert LowerChar(a[i]) == LowerChar(b[i]);
      }
    }
  }

  lemma UpperCaseEquality(a: string, b: string)
    requires forall i :: 0 <= i < |b| ==> 'A' <= b[i] <= 'Z'
    ensures EqIgnoreCase(a, b) <==> Upper(a) == b
  {
    if EqIgnoreCase(a, b) {
      forall i | 0 <= i < |a| ensures Upper(a)[i] == b[i] {
        assert LowerChar(a[i]) == LowerChar(b[i]);
      }
    }
    if Upper(a) == b {
      forall i | 0 <= i < |a| ensures LowerChar(a[i]) == LowerChar(b[i]) {
        assert Upper(a)[i] == b[i];
      }
    }
  }

  /** `split(",")`: always at least one piece. */
  function Split(s: string): (pieces: seq<string>)
    ensures |pieces| > 0
  {
    if s == "" then [""]
    else
      var rest := Split(s[1..]);
      if s[0] == ',' then [""] + rest else [[s[0]] + rest[0]] + rest[1..]
  }

  /** The pieces with a comma between each two. */
  function Joined(pieces: seq<string>): string
    requires |pieces| > 0
  {
    if |pieces| == 1 then pieces[0] else pieces[0] + "," + Joined(pieces[1..])
  }

  lemma {:induction false} NoCommaLeft(s: string, i: nat)
    requires i < |Split(s)|
    ensures ',' !in Split(s)[i]
  {
    if s != "" {
      var rest := Split(s[1..]);
      if i > 0 {
        NoCommaLeft(s[1..], if s[0] == ',' then i - 1 else i);
      } else if s[0] != ',' {
        NoCommaLeft(s[1..], 0);
        assert Split(s)[0] == [s[0]] + rest[0];
      }
    }
  }

  lemma JoinedOne(first: string, rest: seq<string>)
    ensures rest != [] ==> Joined([first] + rest) == first + "," + Joined(rest)
    ensures rest == [] ==> Joined([first] + rest) == first
  {
    assert ([first] + rest)[1..] == rest;
  }

  lemma Associate(a: string, b: string, c: string)
    ensures (a + b) + c == a + (b + c)
  {}

  /** A letter in front of the first piece is a letter in front of the string. */
  lemma JoinedMore(c: char, first: string, rest: seq<string>)
    ensures Joined([[c] + first] + rest) == [c] + Joined([first] + rest)
  {
    hide Joined;
    JoinedOne([c] + first, rest);
    JoinedOne(first, rest);
    if rest != [] {
      Associate([c], first, ",");
      Associate([c], first + ",", Joined(rest));
    }
  }

  /** The pieces joined again are the string, and no piece holds a comma; nothing else has both properties. */
  lemma {:induction false} SplitJoins(s: string)
    ensures Joined(Split(s)) == s
    ensures forall i :: 0 <= i < |Split(s)| ==> ',' !in Split(s)[i]
  {
    forall i | 0 <= i < |Split(s)| ensures ',' !in Split(s)[i] {
      NoCommaLeft(s, i);
    }
    if s != "" {
      hide Joined;
      SplitJoins(s[1..]);
      var rest := Split(s[1..]);
      assert s == [s[0]] + s[1..];
      if s[0] == ',' {
        JoinedOne("", rest);
        assert "" + "," + s[1..] == [s[0]] + s[1..];
      } else {
        JoinedMore(s[0], rest[0], rest[1..]);
        assert [rest[0]] + rest[1..] == rest;
      }
    }
  }

  lemma {:induction false} SplitIsOnly(s: string, pieces: seq<string>)
    requires |pieces| > 0 && Joined(pieces) == s && forall i :: 0 <= i < |pieces| ==> ',' !in pieces[i]
    ensures pieces == Split(s)
    decreases |s|, |pieces|
  {
    var head, rest := pieces[0], pieces[1..];
    assert pieces == [head] + rest;
    JoinedOne(head, rest);
    if head != "" {
      var shorter := [head[1..]] + rest;
      JoinedOne(head[1..], rest);
      assert s[0] == head[0] && head == [head[0]] + head[1..];
      assert s == [s[0]] + Joined(shorter) && s[1..] == Joined(shorter);
      assert head[0] in head && forall c :: c in head[1..] ==> c in head;
      SplitIsOnly(s[1..], shorter);
    } else if rest != [] {
      assert s == [','] + Joined(rest) && s[1..] == Joined(rest);
      SplitIsOnly(s[1..], rest);
    }
  }
}
