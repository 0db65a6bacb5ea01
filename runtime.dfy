/**
 * swift/ui/llm_train/runtime.py: `Runtime.parse_info_from_cmdline`, which recovers the
 * `--key value` arguments of a running `swift sft` command from its task description, and the
 * `format_time` helper of `construct_running_task`, which renders a running time.
 */
module Runtime {
  import opened Wrappers
  import opened PyStr

  // ---------------------------------------------------------------------------------------
  // parse_info_from_cmdline

  datatype RuntimeError = NoSwiftSft  // `split('swift sft')[1]` raises IndexError

  const SwiftSft := "swift sft"

  /** One pass of the first loop, `task[task.find('/') + 1:]`: drop the text through the first `/`, if any. */
  function AfterSlash(s: string): (r: string)
    ensures '/' !in s ==> r == s
    ensures '/' in s ==> |r| < |s| && s == s[..|s| - |r| - 1] + "/" + r && '/' !in s[..|s| - |r| - 1]
  {
    var slash := FindChar(s, '/');
    From(s, slash + 1)
  }

  /** The `task` argument after `n` passes of the first loop. */
  function AfterSlashes(s: string, n: nat): string
  {
    if n == 0 then s else AfterSlash(AfterSlashes(s, n - 1))
  }

  /** `[arg.strip() for arg in args if arg.strip()]`, pieces taken in order. */
  function StrippedPieces(parts: seq<string>): (pieces: seq<string>)
    ensures forall k :: 0 <= k < |pieces| ==> pieces[k] != ""
    decreases |parts|
  {
    if |parts| == 0 then []
    else
      var rest := StrippedPieces(parts[..|parts| - 1]);
      var a := Strip(parts[|parts| - 1]);
      if a != "" then rest + [a] else rest
  }

  /** One argument's key and value: around its first space, or `arg[:-1]` and `arg` when it has none. */
  function KeyValue(arg: string): (kv: (string, string))
    ensures ' ' !in kv.0
  {
    var space := FindChar(arg, ' ');
    (Upto(arg, space), From(arg, space + 1))
  }

  /** The dictionary the second loop fills; a later key overwrites an earlier one. */
  function ArgsMap(args: seq<string>): (m: map<string, string>)
    ensures |args| > 0 ==> var (key, value) := KeyValue(args[|args| - 1]); key in m && m[key] == value
    decreases |args|
  {
    if |args| == 0 then map[]
    else
      var kv := KeyValue(args[|args| - 1]);
      ArgsMap(args[..|args| - 1])[kv.0 := kv.1]
  }

  /** Reference definition of `parse_info_from_cmdline`. */
  function ParsedArgs(task: string): (r: Result<map<string, string>, RuntimeError>)
    ensures r.Err? <==> !Contains(AfterSlashes(task, 3), SwiftSft)
  {
    var t := AfterSlashes(task, 3);
    SplitCount(t, SwiftSft);
    CountPositiveIffContains(t, SwiftSft);
    var parts := Split(t, SwiftSft);
    if |parts| < 2 then Err(NoSwiftSft)
    else Ok(ArgsMap(StrippedPieces(Split(parts[1], "--"))))
  }

  /** `parse_info_from_cmdline`: the two loops of the source. */
  method ParseInfoFromCmdline(task: string) returns (r: Result<map<string, string>, RuntimeError>)
    ensures r == ParsedArgs(task)
  {
    var t := task;
    for i := 0 to 3
      invariant t == AfterSlashes(task, i)
    {
      var slash := FindChar(t, '/');
      t := From(t, slash + 1);
    }
    var parts := Split(t, SwiftSft);
    if |parts| < 2 {
      return Err(NoSwiftSft);
    }
    var allArgs := FillArgs(StrippedPieces(Split(parts[1], "--")));
    return Ok(allArgs);
  }

  /** The second loop of `parse_info_from_cmdline`: each argument's key and value go into the dictionary. */
  method FillArgs(args: seq<string>) returns (allArgs: map<string, string>)
    ensures allArgs == ArgsMap(args)
  {
    allArgs := map[];
    for i := 0 to |args|
      invariant allArgs == ArgsMap(args[..i])
    {
      assert args[..i + 1][..i] == args[..i];
      var space := FindChar(args[i], ' ');
      var key, value := Upto(args[i], space), From(args[i], space + 1);
      allArgs := allArgs[key := value];
    }
    assert args[..|args|] == args;
  }

  /**
   * The argument text is the segment between the first `swift sft` and the next one (or the
   * end): neither it nor the text before it holds `swift sft`.
   */
  lemma {:induction false} ArgsTextBetweenOccurrences(t: string)
    requires Contains(t, SwiftSft)
    ensures var parts := Split(t, SwiftSft);
      && |parts| >= 2
      && var n := |parts[0]| + |SwiftSft| + |parts[1]|;
      && n <= |t|
      && t[..n] == parts[0] + SwiftSft + parts[1]
      && !Contains(parts[0], SwiftSft) && !Contains(parts[1], SwiftSft)
      && (n == |t| || SwiftSft <= t[n..])
  {
    var parts := Split(t, SwiftSft);
    SplitCount(t, SwiftSft);
    CountPositiveIffContains(t, SwiftSft);
    JoinSplit(t, SwiftSft);
    SplitPiecesAreFree(t, SwiftSft);
    var n := |parts[0]| + |SwiftSft| + |parts[1]|;
    var tail := parts[1..];
    assert Join(parts, SwiftSft) == parts[0] + SwiftSft + Join(tail, SwiftSft);
    if |parts| == 2 {
      assert Join(tail, SwiftSft) == parts[1];
      assert t == parts[0] + SwiftSft + parts[1];
    } else {
      var rest := SwiftSft + Join(tail[1..], SwiftSft);
      assert Join(tail, SwiftSft) == parts[1] + rest;
      assert t == (parts[0] + SwiftSft + parts[1]) + rest;
      assert t[n..] == rest;
    }
  }

  /** `str.strip()` leaves no whitespace at either end of a non-empty result. */
  lemma StripEnds(s: string)
    ensures var r := Strip(s); r != "" ==> !IsSpace(r[0]) && !IsSpace(r[|r| - 1])
  {
    var l := LStrip(s);
    var r := RStrip(l);
    if r != "" {
      assert r[0] == l[0];
    }
  }

  /** A non-empty word with no whitespace at either end. */
  predicate Stripped(w: string)
  {
    w != "" && !IsSpace(w[0]) && !IsSpace(w[|w| - 1])
  }

  /** Every argument piece is non-empty and has no whitespace at either end. */
  lemma {:induction false} PiecesStripped(parts: seq<string>)
    ensures forall k :: 0 <= k < |StrippedPieces(parts)| ==> Stripped(StrippedPieces(parts)[k])
    decreases |parts|
  {
    if |parts| > 0 {
      var init := parts[..|parts| - 1];
      var a := Strip(parts[|parts| - 1]);
      var rest := StrippedPieces(init);
      PiecesStripped(init);
      StripEnds(parts[|parts| - 1]);
      assert a != "" ==> Stripped(a);
      assert StrippedPieces(parts) == if a != "" then rest + [a] else rest;
    }
  }

  /**
   * An argument with a space is its key, the space and its value, and the key has no space;
   * one without a space maps `arg[:-1]` to the whole argument.
   */
  lemma KeyValueSplit(arg: string)
    ensures var (key, value) := KeyValue(arg);
      && (' ' in arg ==> arg == key + " " + value && ' ' !in key)
      && (' ' !in arg && arg != "" ==> key == arg[..|arg| - 1] && value == arg)
  {
  }

  /**
   * The dictionary holds one key per argument, and each key maps to the value of the last
   * argument with that key.
   */
  lemma {:induction false} ArgsMapKeys(args: seq<string>)
    ensures forall k :: 0 <= k < |args| ==> KeyValue(args[k]).0 in ArgsMap(args)
    ensures forall key :: key in ArgsMap(args) ==> exists k :: 0 <= k < |args| && KeyValue(args[k]).0 == key
    decreases |args|
  {
    if |args| > 0 {
      var init, last := args[..|args| - 1], KeyValue(args[|args| - 1]);
      var before := ArgsMap(init);
      assert ArgsMap(args) == before[last.0 := last.1];
      ArgsMapKeys(init);
      forall k | 0 <= k < |args|
        ensures KeyValue(args[k]).0 in ArgsMap(args)
      {
        if k < |init| {
          assert args[k] == init[k];
        }
      }
      forall key | key in ArgsMap(args)
        ensures exists k :: 0 <= k < |args| && KeyValue(args[k]).0 == key
      {
        if key != last.0 {
          assert key in before;
          var k :| 0 <= k < |init| && KeyValue(init[k]).0 == key;
          assert args[k] == init[k];
        }
      }
    }
  }

  /** No argument after position `k` has the key of the argument at `k`. */
  predicate LastWithKey(args: seq<string>, k: int)
    requires 0 <= k < |args|
  {
    forall j :: k < j < |args| ==> KeyValue(args[j]).0 != KeyValue(args[k]).0
  }

  /** Each key maps to the value of the last argument that has it: a later duplicate overwrites. */
  lemma {:induction false} ArgsMapLastWins(args: seq<string>, k: nat)
    requires k < |args| && LastWithKey(args, k)
    ensures KeyValue(args[k]).0 in ArgsMap(args) && ArgsMap(args)[KeyValue(args[k]).0] == KeyValue(args[k]).1
    decreases |args|
  {
    var init := args[..|args| - 1];
    if k < |init| {
      assert LastWithKey(init, k) by {
        forall j | k < j < |init|
          ensures KeyValue(init[j]).0 != KeyValue(init[k]).0
        {
          assert init[j] == args[j] && init[k] == args[k];
        }
      }
      ArgsMapLastWins(init, k);
      assert init[k] == args[k];
      assert KeyValue(args[|args| - 1]).0 != KeyValue(args[k]).0;
    }
  }

  // ---------------------------------------------------------------------------------------
  // format_time

  /** The units `format_time` computes. */
  datatype Duration = Duration(days: int, hours: nat, minutes: nat, seconds: nat)

  /**
   * The units of a running time of `n` whole seconds (the floor of the source's float, which
   * gives the same units): hours below 24, minutes and seconds below 60, summing back to `n`.
   */
  function Components(n: int): (d: Duration)
    ensures d.hours < 24 && d.minutes < 60 && d.seconds < 60 && (n >= 0 ==> d.days >= 0)
    ensures d.days * 86400 + d.hours * 3600 + d.minutes * 60 + d.seconds == n
  {
    var rem := n % 86400;
    DayRemainder(n);
    HourRemainder(n);
    Duration(n / 86400, rem / 3600, (n % 3600) / 60, n % 60)
  }

  /** Dropping whole days first does not change the seconds past the hour. */
  lemma DayRemainder(n: int)
    ensures (n % 86400) % 3600 == n % 3600
  {
    var q, r := n / 86400, n % 86400;
    assert n == 86400 * q + r;
    var q2, r2 := r / 3600, r % 3600;
    assert r == 3600 * q2 + r2;
    assert n == 3600 * (24 * q + q2) + r2;
  }

  /** Dropping whole hours first does not change the seconds past the minute. */
  lemma HourRemainder(n: int)
    ensures (n % 3600) % 60 == n % 60
  {
    var q, r := n / 3600, n % 3600;
    assert n == 3600 * q + r;
    var q2, r2 := r / 60, r % 60;
    assert r == 60 * q2 + r2;
    assert n == 60 * (60 * q + q2) + r2;
  }

  /** `format_time`: the units from the highest non-zero one down, each number followed by its letter. */
  function FormatTime(n: int): (r: string)
    ensures |r| > 0 && r[|r| - 1] == 's'
    ensures var t := Components(n);
      && ('d' in r <==> t.days > 0)
      && ('h' in r <==> t.days > 0 || t.hours > 0)
      && ('m' in r <==> t.days > 0 || t.hours > 0 || t.minutes > 0)
  {
    DecimalHasNoLetter(Components(n).days);
    DecimalHasNoLetter(Components(n).hours);
    DecimalHasNoLetter(Components(n).minutes);
    DecimalHasNoLetter(Components(n).seconds);
    var t := Components(n);
    if t.days > 0 then
      NatToDecimal(t.days) + "d " + NatToDecimal(t.hours) + "h " + NatToDecimal(t.minutes) + "m "
      + NatToDecimal(t.seconds) + "s"
    else if t.hours > 0 then
      NatToDecimal(t.hours) + "h " + NatToDecimal(t.minutes) + "m " + NatToDecimal(t.seconds) + "s"
    else if t.minutes > 0 then
      NatToDecimal(t.minutes) + "m " + NatToDecimal(t.seconds) + "s"
    else
      NatToDecimal(t.seconds) + "s"
  }

  /** A decimal numeral holds none of the unit letters. */
  lemma DecimalHasNoLetter(n: int)
    ensures n >= 0 ==> var s := NatToDecimal(n); 'd' !in s && 'h' !in s && 'm' !in s && 's' !in s
  {
    if n >= 0 {
      var s := NatToDecimal(n);
      assert IsDigits(s);
    }
  }

  /** Number texts, each followed by its unit letter, separated by single spaces. */
  function Spell(words: seq<(string, char)>): string
    decreases |words|
  {
    if |words| == 0 then ""
    else if |words| == 1 then words[0].0 + [words[0].1]
    else words[0].0 + [words[0].1, ' '] + Spell(words[1..])
  }

  /** Each unit's number written in decimal, next to its letter. */
  function Words(units: seq<(nat, char)>): (words: seq<(string, char)>)
    ensures |words| == |units|
  {
    seq(|units|, k requires 0 <= k < |units| => (NatToDecimal(units[k].0), units[k].1))
  }

  /** Numbers, each followed by its unit letter, separated by single spaces. */
  function Render(units: seq<(nat, char)>): string
  {
    Spell(Words(units))
  }

  /** The units `format_time` prints: from the highest non-zero one down to seconds. */
  function Shown(n: nat): (units: seq<(nat, char)>)
    ensures 1 <= |units| <= 4
  {
    var t := Components(n);
    if t.days > 0 then [(t.days, 'd'), (t.hours, 'h'), (t.minutes, 'm'), (t.seconds, 's')]
    else if t.hours > 0 then [(t.hours, 'h'), (t.minutes, 'm'), (t.seconds, 's')]
    else if t.minutes > 0 then [(t.minutes, 'm'), (t.seconds, 's')]
    else [(t.seconds, 's')]
  }

  /** A word in front of a non-empty list spells as its text, its letter, a space and the rest. */
  lemma SpellCons(w: (string, char), rest: seq<(string, char)>)
    requires |rest| >= 1
    ensures Spell([w] + rest) == w.0 + [w.1, ' '] + Spell(rest)
  {
    assert ([w] + rest)[1..] == rest;
  }

  /** The spellings of the four word lists `format_time` can show. */
  lemma SpellForms(d: string, h: string, m: string, sec: string)
    ensures Spell([(sec, 's')]) == sec + "s"
    ensures Spell([(m, 'm'), (sec, 's')]) == m + "m " + sec + "s"
    ensures Spell([(h, 'h'), (m, 'm'), (sec, 's')]) == h + "h " + m + "m " + sec + "s"
    ensures Spell([(d, 'd'), (h, 'h'), (m, 'm'), (sec, 's')]) == d + "d " + h + "h " + m + "m " + sec + "s"
  {
    var one := [(sec, 's')];
    var two := [(m, 'm')] + one;
    var three := [(h, 'h')] + two;
    var four := [(d, 'd')] + three;
    SpellCons((m, 'm'), one);
    SpellCons((h, 'h'), two);
    SpellCons((d, 'd'), three);
    assert two == [(m, 'm'), (sec, 's')] && three == [(h, 'h'), (m, 'm'), (sec, 's')];
    assert four == [(d, 'd'), (h, 'h'), (m, 'm'), (sec, 's')];
  }

  /** The formatted time is the rendering of the shown units. */
  lemma FormatTimeRenders(n: nat)
    ensures FormatTime(n) == Render(Shown(n))
  {
    var t := Components(n);
    var d := if t.days > 0 then t.days else 0;
    var D, H, M, S := NatToDecimal(d), NatToDecimal(t.hours), NatToDecimal(t.minutes), NatToDecimal(t.seconds);
    SpellForms(D, H, M, S);
    if t.days > 0 {
      assert Words(Shown(n)) == [(D, 'd'), (H, 'h'), (M, 'm'), (S, 's')];
    } else if t.hours > 0 {
      assert Words(Shown(n)) == [(H, 'h'), (M, 'm'), (S, 's')];
    } else if t.minutes > 0 {
      assert Words(Shown(n)) == [(M, 'm'), (S, 's')];
    } else {
      assert Words(Shown(n)) == [(S, 's')];
    }
  }

  /** Digits followed by a non-digit marker: the marker's position splits both strings alike. */
  lemma DigitsThenMarker(a: string, c: char, x: string, b: string, e: char, y: string)
    requires IsDigits(a) && IsDigits(b) && !('0' <= c <= '9') && !('0' <= e <= '9')
    requires a + [c] + x == b + [e] + y
    ensures a == b && c == e && x == y
  {
    var s, t := a + [c] + x, b + [e] + y;
    assert forall i :: 0 <= i < |a| ==> '0' <= s[i] <= '9';
    assert forall i :: 0 <= i < |b| ==> '0' <= t[i] <= '9';
    assert s[|a|] == c && t[|b|] == e;
    assert |a| == |b|;
    assert a == s[..|a|] && b == t[..|b|];
    assert s[|a|] == c && t[|b|] == e;
    assert x == s[|a| + 1..] && y == t[|b| + 1..];
  }

  /** Letters as unit markers. */
  predicate Letters(units: seq<(nat, char)>)
  {
    forall k :: 0 <= k < |units| ==> !('0' <= units[k].1 <= '9')
  }

  /** Digit texts followed by non-digit markers. */
  predicate Spellable(words: seq<(string, char)>)
  {
    forall k :: 0 <= k < |words| ==> IsDigits(words[k].0) && !('0' <= words[k].1 <= '9')
  }

  /** What follows the first word's marker: nothing for the last word, else a space and the rest. */
  function SpellRest(words: seq<(string, char)>): string
    requires |words| >= 1
  {
    if |words| == 1 then "" else [' '] + Spell(words[1..])
  }

  /** Spelling loses nothing: the string determines the words. */
  lemma {:induction false} SpellInjective(us: seq<(string, char)>, vs: seq<(string, char)>)
    requires Spellable(us) && Spellable(vs) && |us| >= 1 && |vs| >= 1
    requires Spell(us) == Spell(vs)
    ensures us == vs
    decreases |us|
  {
    var x, y := SpellRest(us), SpellRest(vs);
    assert Spell(us) == us[0].0 + [us[0].1] + x;
    assert Spell(vs) == vs[0].0 + [vs[0].1] + y;
    DigitsThenMarker(us[0].0, us[0].1, x, vs[0].0, vs[0].1, y);
    assert us[0] == vs[0];
    assert (|x| == 0 <==> |us| == 1) && (|y| == 0 <==> |vs| == 1);
    if |us| > 1 {
      assert Spell(us[1..]) == x[1..] == y[1..] == Spell(vs[1..]);
      assert Spellable(us[1..]) && Spellable(vs[1..]) by {
        forall k | 0 <= k < |us| - 1 ensures IsDigits(us[1..][k].0) && !('0' <= us[1..][k].1 <= '9') {
          assert us[1..][k] == us[k + 1];
        }
        forall k | 0 <= k < |vs| - 1 ensures IsDigits(vs[1..][k].0) && !('0' <= vs[1..][k].1 <= '9') {
          assert vs[1..][k] == vs[k + 1];
        }
      }
      SpellInjective(us[1..], vs[1..]);
      assert us == [us[0]] + us[1..] && vs == [vs[0]] + vs[1..];
    }
  }

  /** Rendering loses nothing: the string determines the units. */
  lemma RenderInjective(us: seq<(nat, char)>, vs: seq<(nat, char)>)
    requires Letters(us) && Letters(vs) && |us| >= 1 && |vs| >= 1
    requires Render(us) == Render(vs)
    ensures us == vs
  {
    SpellInjective(Words(us), Words(vs));
    forall k | 0 <= k < |us|
      ensures us[k] == vs[k]
    {
      assert Words(us)[k] == Words(vs)[k];
      DecimalInjective(us[k].0, vs[k].0);
    }
  }

  /** The shown units determine a non-negative time. */
  lemma ShownInjective(m: nat, n: nat)
    requires Shown(m) == Shown(n)
    ensures m == n
  {
    var s, t := Components(m), Components(n);
    if s.days > 0 {
      assert Shown(m)[0].1 == 'd';
    } else if s.hours > 0 {
      assert |Shown(m)| == 3 && t.days == 0;
    } else if s.minutes > 0 {
      assert |Shown(m)| == 2 && t.days == 0 && t.hours == 0;
    } else {
      assert |Shown(m)| == 1 && t.days == 0 && t.hours == 0 && t.minutes == 0;
    }
  }

  /** Distinct non-negative running times are formatted differently. */
  lemma FormatTimeInjective(m: nat, n: nat)
    requires FormatTime(m) == FormatTime(n)
    ensures m == n
  {
    FormatTimeRenders(m);
    FormatTimeRenders(n);
    RenderedInjective(m, n);
  }

  /** The rendering of the shown units determines a non-negative time. */
  lemma RenderedInjective(m: nat, n: nat)
    requires Render(Shown(m)) == Render(Shown(n))
    ensures m == n
  {
    RenderInjective(Shown(m), Shown(n));
    ShownInjective(m, n);
  }

  /**
   * A negative time, as a clock moved backwards gives, is printed from the hours down: one
   * second before the start reads like `23h 59m 59s`.
   */
  lemma NegativeTimeWraps()
    ensures FormatTime(-1) == FormatTime(86399)
  {
    assert Components(-1) == Duration(-1, 23, 59, 59);
    assert Components(86399) == Duration(0, 23, 59, 59);
  }
}
