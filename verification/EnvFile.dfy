/**
 The `.env` file: the text the installer writes (crates/adapterctl/src/install_flow.rs)
 and the loader of the daemon (crates/adapterd/src/main.rs), which adds to the process
 environment whatever is not set there yet.
 */
module EnvFile {
  import opened TaskModel
  import opened Text

  type Environment = map<string, string>
  datatype Pair = Pair(key: string, value: string)

  // ---------------------------------------------------------------- the writer

  /** The file opens with comment lines and a blank one; their wording is a parameter. */
  predicate Heading(lines: seq<string>) {
    forall i | 0 <= i < |lines| :: Skipped(lines[i]) && Unbroken(lines[i])
  }

  predicate Skipped(line: string) {
    line == "" || line[0] == '#'
  }

  /** One line once read: no line feed inside, no carriage return at its end. */
  predicate Unbroken(line: string) {
    '\n' !in line && (line != "" ==> line[|line| - 1] != '\r')
  }

  function Joined(lines: seq<string>): string {
    if lines == [] then "" else lines[0] + "\n" + Joined(lines[1..])
  }

  function LineOf(pair: Pair): string {
    pair.key + "=" + pair.value
  }

  function LinesOf(pairs: seq<Pair>): seq<string> {
    seq(|pairs|, i requires 0 <= i < |pairs| => LineOf(pairs[i]))
  }

  method WriteEnvText(heading: seq<string>, pairs: seq<Pair>) returns (text: string)
    ensures text == Joined(heading + LinesOf(pairs))
  {
    text := Joined(heading);
    assert heading + LinesOf([]) == heading;
    var i := 0;
    while i < |pairs|
      invariant 0 <= i <= |pairs|
      invariant text == Joined(heading + LinesOf(pairs[..i]))
    {
      JoinedSnoc(heading + LinesOf(pairs[..i]), LineOf(pairs[i]));
      LinesOfSnoc(pairs, i);
      assert heading + LinesOf(pairs[..i + 1]) == heading + LinesOf(pairs[..i]) + [LineOf(pairs[i])];
      text := text + LineOf(pairs[i]) + "\n";
      i := i + 1;
    }
    assert pairs[..i] == pairs;
  }

  lemma LinesOfSnoc(pairs: seq<Pair>, i: nat)
    requires i < |pairs|
    ensures LinesOf(pairs[..i + 1]) == LinesOf(pairs[..i]) + [LineOf(pairs[i])]
  {
  }

  lemma {:induction false} JoinedSnoc(lines: seq<string>, line: string)
    ensures Joined(lines + [line]) == Joined(lines) + line + "\n"
  {
    if lines == [] {
      assert lines + [line] == [line];
    } else {
      JoinedSnoc(lines[1..], line);
      assert (lines + [line])[1..] == lines[1..] + [line];
    }
  }

  // ---------------------------------------------------------------- the loader

  function IndexOf(s: string, c: char): (i: nat)
    ensures i <= |s| && (forall j | 0 <= j < i :: s[j] != c) && (i < |s| ==> s[i] == c)
  {
    if s == "" || s[0] == c then 0 else 1 + IndexOf(s[1..], c)
  }

  /** Each line without its line feed and the carriage return before it; a last unended line counts too. */
  function Lines(text: string): seq<string>
    decreases |text|
  {
    if text == "" then []
    else
      var n := IndexOf(text, '\n');
      if n == |text| then [text] else [WithoutReturn(text[..n])] + Lines(text[n + 1..])
  }

  function WithoutReturn(line: string): string {
    if line != "" && line[|line| - 1] == '\r' then line[..|line| - 1] else line
  }

  /** Setting a variable panics on an empty name and on a NUL character. */
  predicate Settable(pair: Pair) {
    pair.key != "" && '\0' !in pair.key && '\0' !in pair.value
  }

  /** The pair a line sets, if it is neither blank, a comment nor malformed. */
  function PairOf(line: string): Option<Pair> {
    var trimmed := Trim(line);
    var n := IndexOf(trimmed, '=');
    if trimmed == "" || trimmed[0] == '#' || n == |trimmed| then None
    else Some(Pair(Trim(trimmed[..n]), Trim(trimmed[n + 1..])))
  }

  datatype Load = Load(env: Environment, panicked: bool)

  function Apply(load: Load, pair: Pair): Load {
    if load.panicked || pair.key in load.env then load
    else if Settable(pair) then load.(env := load.env[pair.key := pair.value])
    else load.(panicked := true)
  }

  function LoadLines(load: Load, lines: seq<string>): Load {
    if lines == [] then load
    else
      var before, pair := LoadLines(load, lines[..|lines| - 1]), PairOf(lines[|lines| - 1]);
      if pair.Some? then Apply(before, pair.value) else before
  }

  class Process {
    var env: Environment

    /** `contents` is absent when the file cannot be read. */
    method LoadEnvFile(contents: Option<string>) returns (panicked: bool)
      modifies this
      ensures contents.None? ==> env == old(env) && !panicked
      ensures contents.Some? ==> Load(env, panicked) == LoadLines(Load(old(env), false), Lines(contents.value))
    {
      if contents.None? {
        return false;
      }
      var lines := Lines(contents.value);
      panicked := false;
      var i := 0;
      while i < |lines| && !panicked
        invariant 0 <= i <= |lines|
        invariant Load(env, panicked) == LoadLines(Load(old(env), false), lines[..i])
        decreases |lines| - i
      {
        assert lines[..i + 1][..i] == lines[..i];
        var pair := PairOf(lines[i]);
        if pair.Some? && pair.value.key !in env {
          if Settable(pair.value) {
            env := env[pair.value.key := pair.value.value];
          } else {
            panicked := true;
          }
        }
        i := i + 1;
      }
      if panicked {
        PanicEnds(Load(old(env), false), lines, i);
      } else {
        assert lines[..i] == lines;
      }
    }
  }

  lemma {:induction false} PanicEnds(load: Load, lines: seq<string>, i: nat)
    requires i <= |lines| && LoadLines(load, lines[..i]).panicked
    ensures LoadLines(load, lines) == LoadLines(load, lines[..i])
    decreases |lines|
  {
    if i == |lines| {
      assert lines[..i] == lines;
    } else {
      assert lines[..|lines| - 1][..i] == lines[..i];
      PanicEnds(load, lines[..|lines| - 1], i);
    }
  }

  // ---------------------------------------------------------------- the round trip

  lemma FirstLine(line: string, rest: string)
    requires '\n' !in line
    ensures Lines(line + "\n" + rest) == [WithoutReturn(line)] + Lines(rest)
  {
    var text := line + "\n" + rest;
    assert text[|line|] == '\n' && forall j | 0 <= j < |line| :: text[j] == line[j];
    assert IndexOf(text, '\n') == |line|;
    assert text[..|line|] == line && text[|line| + 1..] == rest;
  }

  /** Splitting undoes joining. */
  lemma {:induction false} LinesOfJoined(lines: seq<string>)
    requires forall i | 0 <= i < |lines| :: Unbroken(lines[i])
    ensures Lines(Joined(lines)) == lines
  {
    if lines != [] {
      FirstLine(lines[0], Joined(lines[1..]));
      LinesOfJoined(lines[1..]);
    }
  }

  /** What the installer writes: trimmed, on one line, with a name that cannot be mistaken. */
  predicate Printable(pair: Pair) {
    && Trimmed(pair.key) && Trimmed(pair.value)
    && '\n' !in pair.key && '\n' !in pair.value
    && pair.key != "" && '=' !in pair.key && pair.key[0] != '#'
  }

  lemma PrintedIsUnbroken(pair: Pair)
    requires Printable(pair)
    ensures Unbroken(LineOf(pair))
  {
    var line := LineOf(pair);
    if pair.value != "" {
      assert line[|line| - 1] == pair.value[|pair.value| - 1];
    }
  }

  lemma PrintedIsTrimmed(pair: Pair)
    requires Printable(pair)
    ensures Trimmed(LineOf(pair))
  {
    var line := LineOf(pair);
    assert line[0] == pair.key[0];
    if pair.value != "" {
      assert line[|line| - 1] == pair.value[|pair.value| - 1];
    }
  }

  lemma SplitsAtKey(pair: Pair)
    requires '=' !in pair.key
    ensures IndexOf(LineOf(pair), '=') == |pair.key|
    ensures LineOf(pair)[..|pair.key|] == pair.key && LineOf(pair)[|pair.key| + 1..] == pair.value
  {
    var line := LineOf(pair);
    assert line[|pair.key|] == '=';
    assert forall j | 0 <= j < |pair.key| :: line[j] == pair.key[j];
  }

  /** A printed pair is read back as it was, also when its value holds equals signs. */
  lemma PairRoundTrips(pair: Pair)
    requires Printable(pair)
    ensures PairOf(LineOf(pair)) == Some(pair)
  {
    PrintedIsTrimmed(pair);
    TrimTrims(LineOf(pair));
    TrimTrims(pair.key);
    TrimTrims(pair.value);
    SplitsAtKey(pair);
  }

  lemma SkippedSetsNothing(line: string)
    requires Skipped(line)
    ensures PairOf(line) == None
  {
    TrimEndKeepsStart(line);
    assert TrimStart(line) == line;
  }

  /** Applying the pairs one after the other; the reference for loading. */
  function ApplyAll(load: Load, pairs: seq<Pair>): Load {
    if pairs == [] then load else Apply(ApplyAll(load, pairs[..|pairs| - 1]), pairs[|pairs| - 1])
  }

  lemma {:induction false} LoadHeading(load: Load, heading: seq<string>)
    requires forall i | 0 <= i < |heading| :: Skipped(heading[i])
    ensures LoadLines(load, heading) == load
  {
    if heading != [] {
      LoadHeading(load, heading[..|heading| - 1]);
      SkippedSetsNothing(heading[|heading| - 1]);
    }
  }

  lemma LoadSnoc(load: Load, lines: seq<string>, line: string)
    ensures LoadLines(load, lines + [line]) ==
            var before, pair := LoadLines(load, lines), PairOf(line);
            if pair.Some? then Apply(before, pair.value) else before
  {
    assert (lines + [line])[..|lines|] == lines;
  }

  lemma {:induction false} LoadPrinted(load: Load, heading: seq<string>, pairs: seq<Pair>)
    requires forall i | 0 <= i < |heading| :: Skipped(heading[i])
    requires forall i | 0 <= i < |pairs| :: Printable(pairs[i])
    ensures LoadLines(load, heading + LinesOf(pairs)) == ApplyAll(load, pairs)
    decreases |pairs|
  {
    if pairs == [] {
      assert heading + LinesOf(pairs) == heading;
      LoadHeading(load, heading);
    } else {
      var n := |pairs| - 1;
      LoadPrinted(load, heading, pairs[..n]);
      LinesOfSnoc(pairs, n);
      assert pairs[..n + 1] == pairs;
      assert heading + LinesOf(pairs) == heading + LinesOf(pairs[..n]) + [LineOf(pairs[n])];
      LoadSnoc(load, heading + LinesOf(pairs[..n]), LineOf(pairs[n]));
      PairRoundTrips(pairs[n]);
    }
  }

  lemma WrittenIsUnbroken(heading: seq<string>, pairs: seq<Pair>)
    requires Heading(heading) && forall i | 0 <= i < |pairs| :: Printable(pairs[i])
    ensures forall i | 0 <= i < |heading + LinesOf(pairs)| :: Unbroken((heading + LinesOf(pairs))[i])
  {
    forall i | 0 <= i < |pairs| ensures Unbroken(LinesOf(pairs)[i]) {
      PrintedIsUnbroken(pairs[i]);
    }
  }

  /** Loading what the installer wrote applies exactly its pairs, in order, for every environment. */
  lemma EnvFileRoundTrips(heading: seq<string>, pairs: seq<Pair>, env: Environment)
    requires Heading(heading) && forall i | 0 <= i < |pairs| :: Printable(pairs[i])
    ensures LoadLines(Load(env, false), Lines(Joined(heading + LinesOf(pairs)))) == ApplyAll(Load(env, false), pairs)
  {
    WrittenIsUnbroken(heading, pairs);
    LinesOfJoined(heading + LinesOf(pairs));
    LoadPrinted(Load(env, false), heading, pairs);
  }

  // ---------------------------------------------------------------- what the pairs amount to

  /** The value of the first pair with this key. */
  function FirstValue(pairs: seq<Pair>, key: string): Option<string> {
    if pairs == [] then None
    else if pairs[0].key == key then Some(pairs[0].value)
    else FirstValue(pairs[1..], key)
  }

  /** What a variable holds afterwards: its old value, or else the value of its first pair. */
  function Expected(env: Environment, pairs: seq<Pair>, key: string): Option<string> {
    if key in env then Some(env[key]) else FirstValue(pairs, key)
  }

  function Lookup(env: Environment, key: string): Option<string> {
    if key in env then Some(env[key]) else None
  }

  lemma {:induction false} FirstValueSnoc(pairs: seq<Pair>, pair: Pair, key: string)
    ensures FirstValue(pairs + [pair], key) ==
            var before := FirstValue(pairs, key);
            if before.Some? then before else if pair.key == key then Some(pair.value) else None
  {
    if pairs == [] {
      assert pairs + [pair] == [pair];
    } else {
      FirstValueSnoc(pairs[1..], pair, key);
      assert (pairs + [pair])[1..] == pairs[1..] + [pair];
    }
  }

  lemma {:induction false} ExpectedHolds(env: Environment, pairs: seq<Pair>, key: string)
    requires !ApplyAll(Load(env, false), pairs).panicked
    ensures Lookup(ApplyAll(Load(env, false), pairs).env, key) == Expected(env, pairs, key)
  {
    if pairs != [] {
      var n := |pairs| - 1;
      ExpectedHolds(env, pairs[..n], key);
      FirstValueSnoc(pairs[..n], pairs[n], key);
      assert pairs == pairs[..n] + [pairs[n]];
    }
  }

  lemma {:induction false} PanicsExactly(env: Environment, pairs: seq<Pair>)
    ensures ApplyAll(Load(env, false), pairs).panicked <==>
            exists i | 0 <= i < |pairs| ::
              !Settable(pairs[i]) && Expected(env, pairs[..i], pairs[i].key).None?
  {
    if pairs != [] {
      var n := |pairs| - 1;
      PanicsExactly(env, pairs[..n]);
      if !ApplyAll(Load(env, false), pairs[..n]).panicked {
        ExpectedHolds(env, pairs[..n], pairs[n].key);
      }
      forall i | 0 <= i < n ensures pairs[..n][i] == pairs[i] && pairs[..n][..i] == pairs[..i] {
      }
    }
  }

  /**
   The loaded file adds exactly the missing keys: existing variables are unchanged, the
   first pair wins on repeats, and nothing else is set. It panics exactly on a pair with
   a NUL character whose key is still unset when its turn comes.
   */
  lemma LoadingCompletesTheEnvironment(heading: seq<string>, pairs: seq<Pair>, env: Environment)
    requires Heading(heading) && forall i | 0 <= i < |pairs| :: Printable(pairs[i])
    ensures var after := LoadLines(Load(env, false), Lines(Joined(heading + LinesOf(pairs))));
            && (after.panicked <==>
                  exists i | 0 <= i < |pairs| ::
                    !Settable(pairs[i]) && Expected(env, pairs[..i], pairs[i].key).None?)
            && (!after.panicked ==> forall key :: Lookup(after.env, key) == Expected(env, pairs, key))
  {
    EnvFileRoundTrips(heading, pairs, env);
    PanicsExactly(env, pairs);
    if !ApplyAll(Load(env, false), pairs).panicked {
      forall key ensures Lookup(ApplyAll(Load(env, false), pairs).env, key) == Expected(env, pairs, key) {
        ExpectedHolds(env, pairs, key);
      }
    }
  }

  // ---------------------------------------------------------------- files the installer did not write

  /** A line ends at a line feed, which a carriage return may precede; the last line may be left unended. */
  lemma LinesEndEitherWay(line: string, rest: string)
    requires '\n' !in line
    ensures line == "" || line[|line| - 1] != '\r' ==> Lines(line + "\n" + rest) == [line] + Lines(rest)
    ensures Lines(line + "\r" + "\n" + rest) == [line] + Lines(rest)
    ensures line != "" ==> Lines(line) == [line]
  {
    FirstLine(line, rest);
    FirstLine(line + "\r", rest);
    assert WithoutReturn(line + "\r") == line;
  }

  ghost predicate Comment(line: string) {
    exists i: nat | i < |line| :: line[i] == '#' && AllWhite(line[..i])
  }

  lemma CommentStarts(line: string)
    ensures Comment(line) <==> Trim(line) != "" && Trim(line)[0] == '#'
  {
    if Comment(line) {
      var i: nat :| i < |line| && line[i] == '#' && AllWhite(line[..i]);
      assert line == line[..i] + line[i..];
      TrimStartDrops(line[..i], line[i..]);
      TrimEndKeepsBlack(line[i..]);
    }
    if Trim(line) != "" && Trim(line)[0] == '#' {
      var front, back := TrimTakesWhite(line);
      assert line[|front|] == '#' && line[..|front|] == front;
    }
  }

  /** Exactly comments and lines without an equals sign set nothing. */
  lemma LinesThatSetNothing(line: string)
    ensures PairOf(line).None? <==> Comment(line) || '=' !in line
  {
    CommentStarts(line);
    var front, back := TrimTakesWhite(line);
    TrimTrims(line);
    if '=' in line {
      assert '=' in Trim(line);
    }
  }

  function Padded(key: string, white: string): string {
    if key == "" then "" else key + white
  }

  lemma PaddedTrims(key: string, white: string)
    requires Trimmed(key) && AllWhite(white)
    ensures Trim(Padded(key, white)) == key
    ensures key != "" ==> Padded(key, white)[0] == key[0]
    ensures '=' !in key ==> '=' !in Padded(key, white)
  {
    if key == "" {
      TrimFindsTheCore("", key, "");
    } else {
      TrimFindsTheCore("", key, white);
      assert "" + key + white == key + white;
    }
  }

  lemma PaddingTrims(white: string, value: string)
    requires Trimmed(value) && AllWhite(white)
    ensures var padded := if value == "" then "" else white + value;
            Trim(padded) == value && (value != "" ==> padded[|padded| - 1] == value[|value| - 1])
  {
    if value == "" {
      TrimFindsTheCore("", value, "");
    } else {
      TrimFindsTheCore(white, value, "");
      assert white + value + "" == white + value;
    }
  }

  lemma CoreReads(line: string, name: string, rest: string)
    requires '=' !in name && Trim(line) == name + "=" + rest && (name != "" ==> name[0] != '#')
    ensures PairOf(line) == Some(Pair(Trim(name), Trim(rest)))
  {
    SplitsAtKey(Pair(name, rest));
    assert LineOf(Pair(name, rest)) == name + "=" + rest;
  }

  lemma LineRegroups(before: string, key: string, left: string, right: string, value: string, behind: string)
    ensures var front, back := if key == "" then before + left else before, if value == "" then right + behind else behind;
            before + key + left + "=" + right + value + behind ==
            front + (Padded(key, left) + "=" + if value == "" then "" else right + value) + back
  {
  }

  lemma CoreIsTrimmed(name: string, rest: string)
    requires name != "" ==> !IsWhite(name[0])
    requires rest != "" ==> !IsWhite(rest[|rest| - 1])
    ensures Trimmed(name + "=" + rest)
  {
    var core := name + "=" + rest;
    assert core[0] == (if name == "" then '=' else name[0]);
    assert core[|core| - 1] == (if rest == "" then '=' else rest[|rest| - 1]);
  }

  lemma LineAround(line: string, front: string, name: string, rest: string, back: string)
    requires AllWhite(front) && AllWhite(back) && line == front + (name + "=" + rest) + back && '=' !in name
    requires name != "" ==> !IsWhite(name[0]) && name[0] != '#'
    requires rest != "" ==> !IsWhite(rest[|rest| - 1])
    ensures PairOf(line) == Some(Pair(Trim(name), Trim(rest)))
  {
    CoreIsTrimmed(name, rest);
    TrimFindsTheCore(front, name + "=" + rest, back);
    CoreReads(line, name, rest);
  }

  /** Every other line sets what stands before its first equals sign to what stands after it, both trimmed. */
  lemma LinesThatSet(before: string, key: string, left: string, right: string, value: string, behind: string)
    requires AllWhite(before) && AllWhite(left) && AllWhite(right) && AllWhite(behind)
    requires Trimmed(key) && Trimmed(value) && '=' !in key && (key != "" ==> key[0] != '#')
    ensures PairOf(before + key + left + "=" + right + value + behind) == Some(Pair(key, value))
  {
    PaddedTrims(key, left);
    PaddingTrims(right, value);
    LineRegroups(before, key, left, right, value, behind);
    LineAround(before + key + left + "=" + right + value + behind, if key == "" then before + left else before,
               Padded(key, left), if value == "" then "" else right + value,
               if value == "" then right + behind else behind);
  }

  function PairsIn(lines: seq<string>): seq<Pair> {
    if lines == [] then []
    else
      var pair := PairOf(lines[|lines| - 1]);
      PairsIn(lines[..|lines| - 1]) + if pair.Some? then [pair.value] else []
  }

  lemma {:induction false} LoadingAppliesThePairs(load: Load, lines: seq<string>)
    ensures LoadLines(load, lines) == ApplyAll(load, PairsIn(lines))
  {
    if lines != [] {
      var n := |lines| - 1;
      LoadingAppliesThePairs(load, lines[..n]);
      var pair := PairOf(lines[n]);
      if pair.Some? {
        assert PairsIn(lines)[..|PairsIn(lines)| - 1] == PairsIn(lines[..n]);
      } else {
        assert PairsIn(lines) == PairsIn(lines[..n]);
      }
    }
  }

  /** Whatever the file says: the pairs of its lines complete the environment, up to the first that cannot be set. */
  lemma AnyFileCompletesTheEnvironment(text: string, env: Environment)
    ensures var after, pairs := LoadLines(Load(env, false), Lines(text)), PairsIn(Lines(text));
            && (after.panicked <==>
                  exists i | 0 <= i < |pairs| ::
                    !Settable(pairs[i]) && Expected(env, pairs[..i], pairs[i].key).None?)
            && (!after.panicked ==> forall key :: Lookup(after.env, key) == Expected(env, pairs, key))
  {
    var pairs := PairsIn(Lines(text));
    LoadingAppliesThePairs(Load(env, false), Lines(text));
    PanicsExactly(env, pairs);
    if !ApplyAll(Load(env, false), pairs).panicked {
      forall key ensures Lookup(ApplyAll(Load(env, false), pairs).env, key) == Expected(env, pairs, key) {
        ExpectedHolds(env, pairs, key);
      }
    }
  }

  /** The file, pair by pair: each adds its name, an equals sign, its value and a line feed. */
  lemma WrittenPairByPair(heading: seq<string>, pairs: seq<Pair>, pair: Pair)
    ensures Joined(heading + LinesOf(pairs + [pair])) ==
            Joined(heading + LinesOf(pairs)) + pair.key + "=" + pair.value + "\n"
  {
    var all := pairs + [pair];
    LinesOfSnoc(all, |pairs|);
    assert all[..|pairs|] == pairs && all[..|pairs| + 1] == all;
    assert heading + LinesOf(all) == heading + LinesOf(pairs) + [LineOf(pair)];
    JoinedSnoc(heading + LinesOf(pairs), LineOf(pair));
    assert Joined(heading + LinesOf(pairs)) + LineOf(pair) == Joined(heading + LinesOf(pairs)) + pair.key + "=" + pair.value;
  }
}
