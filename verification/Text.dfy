/** The string operations of Rust's standard library that the models share. */
module Text {

  /** Unicode's White_Space property. */
  predicate IsWhite(c: char) {
    || '\U{0009}' <= c <= '\U{000D}' || c == ' ' || c == '\U{0085}' || c == '\U{00A0}' || c == '\U{1680}'
    || '\U{2000}' <= c <= '\U{200A}' || c == '\U{2028}' || c == '\U{2029}' || c == '\U{202F}' || c == '\U{205F}'
    || c == '\U{3000}'
  }

  function TrimStart(s: string): string {
    if s != "" && IsWhite(s[0]) then TrimStart(s[1..]) else s
  }

  function TrimEnd(s: string): string {
    if s != "" && IsWhite(s[|s| - 1]) then TrimEnd(s[..|s| - 1]) else s
  }

  function Trim(s: string): string {
    TrimEnd(TrimStart(s))
  }

  predicate Trimmed(s: string) {
    s != "" ==> !IsWhite(s[0]) && !IsWhite(s[|s| - 1])
  }

  lemma {:induction false} TrimEndKeepsStart(s: string)
    ensures TrimEnd(s) <= s && (TrimEnd(s) != "" ==> !IsWhite(TrimEnd(s)[|TrimEnd(s)| - 1]))
  {
    if s != "" && IsWhite(s[|s| - 1]) {
      TrimEndKeepsStart(s[..|s| - 1]);
    }
  }

  lemma {:induction false} TrimStartKeepsEnd(s: string)
    ensures |TrimStart(s)| <= |s| && TrimStart(s) == s[|s| - |TrimStart(s)|..]
    ensures TrimStart(s) != "" ==> !IsWhite(TrimStart(s)[0])
  {
    if s != "" && IsWhite(s[0]) {
      TrimStartKeepsEnd(s[1..]);
    }
  }

  /** Trimming leaves a text with no white space at its ends, and leaves such a text alone. */
  lemma TrimTrims(s: string)
    ensures Trimmed(Trim(s))
    ensures Trimmed(s) ==> Trim(s) == s
    ensures forall c | c in Trim(s) :: c in s
  {
    TrimStartKeepsEnd(s);
    TrimEndKeepsStart(TrimStart(s));
  }

  predicate AllWhite(s: string) {
    forall c | c in s :: IsWhite(c)
  }

  lemma {:induction false} TrimStartDrops(front: string, rest: string)
    requires AllWhite(front)
    ensures TrimStart(front + rest) == TrimStart(rest)
  {
    if front == "" {
      assert front + rest == rest;
    } else {
      assert front[0] in front && (front + rest)[1..] == front[1..] + rest;
      TrimStartDrops(front[1..], rest);
    }
  }

  lemma {:induction false} TrimEndDrops(rest: string, back: string)
    requires AllWhite(back)
    ensures TrimEnd(rest + back) == TrimEnd(rest)
  {
    if back == "" {
      assert rest + back == rest;
    } else {
      var n := |back| - 1;
      assert back[n] in back && (rest + back)[..|rest| + n] == rest + back[..n];
      TrimEndDrops(rest, back[..n]);
    }
  }

  /** White space around a text without any at its ends is all that trimming takes away. */
  lemma TrimFindsTheCore(front: string, core: string, back: string)
    requires AllWhite(front) && AllWhite(back) && Trimmed(core)
    ensures Trim(front + core + back) == core
  {
    assert front + core + back == front + (core + back);
    TrimStartDrops(front, core + back);
    if core == "" {
      assert core + back == back && back + "" == back && "" + back == back;
      TrimStartDrops(back, "");
    } else {
      assert TrimStart(core + back) == core + back;
      TrimEndDrops(core, back);
    }
  }

  lemma {:induction false} TrimStartTakes(s: string) returns (front: string)
    ensures AllWhite(front) && s == front + TrimStart(s)
  {
    front := "";
    if s != "" && IsWhite(s[0]) {
      var more := TrimStartTakes(s[1..]);
      front := [s[0]] + more;
    }
  }

  lemma {:induction false} TrimEndTakes(s: string) returns (back: string)
    ensures AllWhite(back) && s == TrimEnd(s) + back
  {
    back := "";
    if s != "" && IsWhite(s[|s| - 1]) {
      var more := TrimEndTakes(s[..|s| - 1]);
      back := more + [s[|s| - 1]];
    }
  }

  lemma {:induction false} TrimEndKeepsBlack(s: string)
    requires s != "" && !IsWhite(s[0])
    ensures TrimEnd(s) != "" && TrimEnd(s)[0] == s[0]
  {
    if IsWhite(s[|s| - 1]) {
      TrimEndKeepsBlack(s[..|s| - 1]);
    }
  }

  /** What trimming takes away is white space, at the two ends. */
  lemma TrimTakesWhite(s: string) returns (front: string, back: string)
    ensures AllWhite(front) && AllWhite(back) && s == front + Trim(s) + back
  {
    front := TrimStartTakes(s);
    back := TrimEndTakes(TrimStart(s));
  }
}
