/**
 * The iteration banner of gpry/run.py (`Runner.banner`): a header rule, the
 * text's lines framed by a prefix and, when it fits, padding and a suffix
 * that end every line at the same column, and a footer rule. The model
 * returns the lines that `log` prints.
 */
module Banner {
  import opened Outcomes

  /** The `header`/`footer` argument: falsy (None, False, ""), a non-empty string, or another truthy value. */
  datatype Rule = Falsy | Str(s: string) | NotStr

  /** `n * s`: `s` repeated, empty for n <= 0. */
  function Repeat(s: string, n: int): (r: string)
    ensures |r| == if n <= 0 then 0 else n * |s|
    ensures |s| == 1 ==> forall i :: 0 <= i < |r| ==> r[i] == s[0]
  {
    if n <= 0 then "" else Repeat(s, n - 1) + s
  }

  /** The line a header or footer rule prints, if any. */
  function RuleLine(rule: Rule, width: int): (r: Option<string>)
    ensures r.Some? <==> rule.NotStr? || (rule.Str? && rule.s != "")
    ensures rule.NotStr? ==> r == Some(Repeat("=", width))
  {
    match rule
    case Falsy => None
    case Str(s) => if s == "" then None else Some(Repeat(s, width))
    case NotStr => Some(Repeat("=", width))
  }

  /** `s.lstrip("\n")`. */
  function StripLeading(s: string): (r: string)
    ensures |r| <= |s| && r == s[|s| - |r|..]
    ensures forall i :: 0 <= i < |s| - |r| ==> s[i] == '\n'
    ensures |r| > 0 ==> r[0] != '\n'
  {
    if |s| > 0 && s[0] == '\n' then StripLeading(s[1..]) else s
  }

  /** `s.rstrip("\n")`. */
  function StripTrailing(s: string): (r: string)
    ensures |r| <= |s| && r == s[..|r|]
    ensures forall i :: |r| <= i < |s| ==> s[i] == '\n'
    ensures |r| > 0 ==> r[|r| - 1] != '\n'
  {
    if |s| > 0 && s[|s| - 1] == '\n' then StripTrailing(s[..|s| - 1]) else s
  }

  /** `s.strip("\n")`. */
  function Strip(s: string): string {
    StripTrailing(StripLeading(s))
  }

  /** `s.split("\n")`: never empty, and no part holds a newline. */
  function Split(s: string): (parts: seq<string>)
    ensures |parts| >= 1
    ensures forall k :: 0 <= k < |parts| ==> '\n' !in parts[k]
  {
    if |s| == 0 then [""]
    else
      var rest := Split(s[..|s| - 1]);
      var c := s[|s| - 1];
      if c == '\n' then rest + [""]
      else rest[..|rest| - 1] + [rest[|rest| - 1] + [c]]
  }

  /** `"\n".join(parts)`. */
  function Join(parts: seq<string>): string
    requires |parts| >= 1
  {
    if |parts| == 1 then parts[0] else Join(parts[..|parts| - 1]) + "\n" + parts[|parts| - 1]
  }

  /** A newline at the end of the text opens a new, empty part. */
  lemma JoinNewPart(parts: seq<string>)
    requires |parts| >= 1
    ensures Join(parts + [""]) == Join(parts) + "\n"
  {
    assert (parts + [""])[..|parts|] == parts;
  }

  /** Any other character at the end of the text extends the last part. */
  lemma JoinExtendLast(parts: seq<string>, c: char)
    requires |parts| >= 1
    ensures Join(parts[..|parts| - 1] + [parts[|parts| - 1] + [c]]) == Join(parts) + [c]
  {
    var n := |parts| - 1;
    var grown := parts[..n] + [parts[n] + [c]];
    if n > 0 {
      assert grown[..n] == parts[..n];
    }
  }

  /** Splitting one more character adds exactly that character to the joined text. */
  lemma SplitLast(s: string)
    requires |s| > 0
    ensures Join(Split(s)) == Join(Split(s[..|s| - 1])) + [s[|s| - 1]]
  {
    var rest, c := Split(s[..|s| - 1]), s[|s| - 1];
    if c == '\n' {
      JoinNewPart(rest);
    } else {
      JoinExtendLast(rest, c);
    }
  }

  /** Splitting at the newlines loses nothing: joining the parts again gives the text back. */
  lemma {:induction false} JoinSplit(s: string)
    ensures Join(Split(s)) == s
  {
    if |s| > 0 {
      SplitLast(s);
      JoinSplit(s[..|s| - 1]);
      assert s[..|s| - 1] + [s[|s| - 1]] == s;
    }
  }

  /**
   * One text line as printed: the prefix and the line, then, when they leave
   * room for the suffix, spaces up to `width - |suffix|` and the suffix.
   */
  function PadLine(prefix: string, line: string, suffix: string, width: int): (r: string)
    ensures var l := prefix + line;
      && |r| >= |l| && r[..|l|] == l
      && (width - |l| - |suffix| >= 0 ==>
            && |r| == width
            && r[width - |suffix|..] == suffix
            && forall i :: |l| <= i < width - |suffix| ==> r[i] == ' ')
      && (width - |l| - |suffix| < 0 ==> r == l)
  {
    var l := prefix + line;
    var left := width - |l| - |suffix|;
    if left >= 0 then l + Repeat(" ", left) + suffix else l
  }

  /** Whether `log(msg, level)` prints: always without a level, else when it is within the verbosity. */
  predicate Printed(level: Option<int>, verbose: int) {
    level.None? || level.value <= verbose
  }

  function PadAll(prefix: string, lines: seq<string>, suffix: string, width: int): (r: seq<string>)
    ensures |r| == |lines|
    ensures forall k :: 0 <= k < |lines| ==> r[k] == PadLine(prefix, lines[k], suffix, width)
  {
    seq(|lines|, k requires 0 <= k < |lines| => PadLine(prefix, lines[k], suffix, width))
  }

  function Opt(line: Option<string>): (r: seq<string>)
    ensures |r| == if line.Some? then 1 else 0
  {
    if line.Some? then [line.value] else []
  }

  /** The lines `banner(text, max_line_length, prefix, suffix, header, footer, level)` prints. */
  function Banner(text: string, width: int, prefix: string, suffix: string, header: Rule, footer: Rule,
                  level: Option<int>, verbose: int): (r: seq<string>)
    ensures !Printed(level, verbose) ==> r == []
    ensures Printed(level, verbose) ==>
      var lines := Split(Strip(text));
      var h := RuleLine(header, width);
      var f := RuleLine(footer, width);
      var top := if h.Some? then 1 else 0;
      && |r| == top + |lines| + (if f.Some? then 1 else 0)
      && (h.Some? ==> r[0] == h.value)
      && (forall k :: 0 <= k < |lines| ==> r[top + k] == PadLine(prefix, lines[k], suffix, width))
      && (f.Some? ==> r[|r| - 1] == f.value)
  {
    if !Printed(level, verbose) then []
    else
      Opt(RuleLine(header, width)) + PadAll(prefix, Split(Strip(text)), suffix, width) + Opt(RuleLine(footer, width))
  }

  /**
   * With the default frame ("| ", " |", "=" rules, 79 columns) a printed
   * banner is a rule of 79 '=', one line per line of the stripped text, and
   * a closing rule; each text line starts with "| " and the line, and every
   * text line short enough to take the suffix is exactly 79 columns wide and
   * ends with " |".
   */
  lemma DefaultBannerFramed(text: string, level: Option<int>, verbose: int)
    requires Printed(level, verbose)
    ensures var b := Banner(text, 79, "| ", " |", Str("="), Str("="), level, verbose);
      var lines := Split(Strip(text));
      && |b| == |lines| + 2
      && b[0] == Repeat("=", 79) && b[|b| - 1] == Repeat("=", 79)
      && (forall i :: 0 <= i < 79 ==> b[0][i] == '=')
      && (forall k :: 0 <= k < |lines| ==> b[k + 1][..2 + |lines[k]|] == "| " + lines[k])
      && (forall k :: 0 <= k < |lines| && |lines[k]| <= 75 ==>
            |b[k + 1]| == 79 && b[k + 1][77..] == " |")
  {
    var b := Banner(text, 79, "| ", " |", Str("="), Str("="), level, verbose);
    var lines := Split(Strip(text));
    var rule := Repeat("=", 79);
    assert RuleLine(Str("="), 79) == Some(rule);
    assert |rule| == 79 && forall i :: 0 <= i < 79 ==> rule[i] == '=';
    forall k | 0 <= k < |lines|
      ensures b[k + 1][..2 + |lines[k]|] == "| " + lines[k]
      ensures |lines[k]| <= 75 ==> |b[k + 1]| == 79 && b[k + 1][77..] == " |"
    {
      var line := PadLine("| ", lines[k], " |", 79);
      assert b[k + 1] == line;
    }
  }
}
