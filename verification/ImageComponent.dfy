/** builder.go: how arbitrary text becomes one component of a repository path. */
module ImageComponent {
  import opened Text

  predicate IsAlphanumeric(c: char) {
    'a' <= c <= 'z' || '0' <= c <= '9'
  }

  predicate IsMark(c: char) {
    c == '.' || c == '_' || c == '-'
  }

  /** What is used of unicode.ToLower; its tables are not modelled. */
  ghost predicate LowersCase(f: char -> char) {
    && (forall c :: IsAlphanumeric(c) || IsMark(c) || c == '/' ==> f(c) == c)
    && (forall c :: f(f(c)) == f(c))
    && (forall c :: IsSpace(f(c)) <==> IsSpace(c))
  }

  type Lower = f: char -> char | LowersCase(f) witness (c => c)

  /** strings.ToLower. */
  function ToLower(s: string, lower: Lower): (r: string)
    ensures |r| == |s| && forall i :: 0 <= i < |s| ==> r[i] == lower(s[i])
  {
    seq(|s|, i requires 0 <= i < |s| => lower(s[i]))
  }

  function Prepared(value: string, lower: Lower): string {
    ToLower(TrimSpace(value), lower)
  }

  /** The length of the alphanumeric run that s starts with. */
  function Run(s: string): (n: nat)
    ensures n <= |s|
    ensures forall i :: 0 <= i < n ==> IsAlphanumeric(s[i])
    ensures n < |s| ==> !IsAlphanumeric(s[n])
  {
    if s != "" && IsAlphanumeric(s[0]) then 1 + Run(s[1..]) else 0
  }

  /** The length of the gap that s starts with. */
  function Gap(s: string): (n: nat)
    ensures n <= |s|
    ensures forall i :: 0 <= i < n ==> !IsAlphanumeric(s[i])
    ensures n < |s| ==> IsAlphanumeric(s[n])
  {
    if s != "" && !IsAlphanumeric(s[0]) then 1 + Gap(s[1..]) else 0
  }

  /** What a gap turns into: its first character if that may stand in a component. */
  function Mark(c: char): (m: char)
    ensures IsMark(m) && (IsMark(c) ==> m == c)
  {
    if IsMark(c) then c else '-'
  }

  /** The runs of s, one mark between any two of them. */
  function Runs(s: string): string
    decreases |s|
  {
    var body := s[Gap(s)..];
    var n := Run(body);
    if body == "" then "" else body[..n] + AfterRun(body[n..])
  }

  /** What follows a run: nothing if no further run comes, otherwise a mark and that run. */
  function AfterRun(s: string): string
    requires s != "" ==> !IsAlphanumeric(s[0])
    decreases |s|
  {
    if Gap(s) == |s| then "" else [Mark(s[0])] + Runs(s[Gap(s)..])
  }

  // ------------------------------------------------------------------ reading from the front

  predicate AllAlphanumeric(s: string) {
    forall i :: 0 <= i < |s| ==> IsAlphanumeric(s[i])
  }

  predicate NoneAlphanumeric(s: string) {
    forall i :: 0 <= i < |s| ==> !IsAlphanumeric(s[i])
  }

  lemma {:induction false} RunOf(run: string, rest: string)
    requires AllAlphanumeric(run) && (rest != "" ==> !IsAlphanumeric(rest[0]))
    ensures Run(run + rest) == |run|
  {
    if run == "" {
      assert run + rest == rest;
    } else {
      RunOf(run[1..], rest);
      assert (run + rest)[1..] == run[1..] + rest;
    }
  }

  lemma {:induction false} GapOf(gap: string, rest: string)
    requires NoneAlphanumeric(gap) && (rest != "" ==> IsAlphanumeric(rest[0]))
    ensures Gap(gap + rest) == |gap|
  {
    if gap == "" {
      assert gap + rest == rest;
    } else {
      GapOf(gap[1..], rest);
      assert (gap + rest)[1..] == gap[1..] + rest;
    }
  }

  /** A leading gap vanishes and the run after it survives. */
  lemma RunsSplit(lead: string, run: string, rest: string)
    requires NoneAlphanumeric(lead) && AllAlphanumeric(run) && run != ""
    requires rest != "" ==> !IsAlphanumeric(rest[0])
    ensures Runs(lead + (run + rest)) == run + AfterRun(rest)
  {
    var body := run + rest;
    GapOf(lead, body);
    RunOf(run, rest);
    assert (lead + body)[|lead|..] == body;
    assert body[..|run|] == run && body[|run|..] == rest;
  }

  /** A gap before a further run leaves one mark. */
  lemma AfterGap(gap: string, rest: string)
    requires NoneAlphanumeric(gap)
    requires rest != "" ==> gap != "" && IsAlphanumeric(rest[0])
    ensures AfterRun(gap + rest) == if rest == "" then "" else [Mark(gap[0])] + Runs(rest)
  {
    GapOf(gap, rest);
    assert (gap + rest)[|gap|..] == rest;
  }

  lemma Regroup(a: string, b: string, c: string)
    ensures (a + b) + c == a + (b + c)
  {
  }

  /** One leading gap, one run and the gap after it. */
  lemma RunsStep(lead: string, run: string, gap: string, rest: string)
    requires NoneAlphanumeric(lead) && run != "" && AllAlphanumeric(run) && NoneAlphanumeric(gap)
    requires rest != "" ==> gap != "" && IsAlphanumeric(rest[0])
    ensures Runs(lead + (run + gap + rest)) == if rest == "" then run else run + [Mark(gap[0])] + Runs(rest)
  {
    hide Run, Gap, Runs, AfterRun;
    AfterGap(gap, rest);
    Regroup(run, gap, rest);
    RunsSplit(lead, run, gap + rest);
    if rest == "" {
      assert run + "" == run;
    } else {
      Regroup(run, [Mark(gap[0])], Runs(rest));
    }
  }

  /** The component grammar [a-z0-9]+([._-][a-z0-9]+)*. */
  predicate Component(s: string)
    decreases |s|
  {
    var n := Run(s);
    n > 0 && (n == |s| || (IsMark(s[n]) && Component(s[n + 1..])))
  }

  // ------------------------------------------------------------------ the loop

  function TrimMarksLeft(s: string): string {
    if s != "" && IsMark(s[0]) then TrimMarksLeft(s[1..]) else s
  }

  function TrimMarksRight(s: string): string {
    if s != "" && IsMark(s[|s| - 1]) then TrimMarksRight(s[..|s| - 1]) else s
  }

  /** strings.Trim with the cutset "._-". */
  function TrimMarks(s: string): string {
    TrimMarksRight(TrimMarksLeft(s))
  }

  function ComponentOr(value: string, fallback: string, lower: Lower): string {
    var runs := Runs(Prepared(value, lower));
    if runs == "" then fallback else runs
  }

  /** What the loop's buffer holds: it starts with a run, and ends with one unless the flag is set. */
  predicate Built(buffer: string, lastSeparator: bool) {
    if buffer == "" then !lastSeparator
    else
      && IsAlphanumeric(buffer[0])
      && (if lastSeparator
          then |buffer| > 1 && IsMark(buffer[|buffer| - 1]) && IsAlphanumeric(buffer[|buffer| - 2])
          else IsAlphanumeric(buffer[|buffer| - 1]))
  }

  /** What the loop will have made once it has read rest as well. */
  function Completed(buffer: string, lastSeparator: bool, rest: string): string
    requires Built(buffer, lastSeparator)
  {
    if buffer == "" then Runs(rest)
    else if !lastSeparator then buffer + rest[..Run(rest)] + AfterRun(rest[Run(rest)..])
    else if Runs(rest) == "" then buffer[..|buffer| - 1]
    else buffer + Runs(rest)
  }

  lemma RunsEmptyExactly(s: string)
    ensures Runs(s) == "" <==> Gap(s) == |s|
  {
    var body := s[Gap(s)..];
    if body != "" {
      assert Run(body) > 0;
    }
  }

  /** Reading a run one character at a time. */
  lemma RunOpens(rest: string)
    requires rest != "" && IsAlphanumeric(rest[0])
    ensures Run(rest) == 1 + Run(rest[1..])
    ensures rest[..Run(rest)] == [rest[0]] + rest[1..][..Run(rest[1..])]
    ensures rest[Run(rest)..] == rest[1..][Run(rest[1..])..]
  {
    var n := Run(rest[1..]);
    hide Run;
    assert rest == [rest[0]] + rest[1..];
  }

  lemma RunsFromRun(rest: string)
    requires rest != "" && IsAlphanumeric(rest[0])
    ensures Runs(rest) == rest[..Run(rest)] + AfterRun(rest[Run(rest)..])
  {
    assert Gap(rest) == 0 && rest[0..] == rest;
  }

  lemma BuiltByRun(buffer: string, lastSeparator: bool, c: char)
    requires Built(buffer, lastSeparator) && IsAlphanumeric(c)
    ensures Built(buffer + [c], false)
  {
  }

  lemma ReadAlphanumeric(buffer: string, lastSeparator: bool, rest: string)
    requires Built(buffer, lastSeparator) && rest != "" && IsAlphanumeric(rest[0])
    ensures Built(buffer + [rest[0]], false)
    ensures Completed(buffer + [rest[0]], false, rest[1..]) == Completed(buffer, lastSeparator, rest)
  {
    RunOpens(rest);
    RunsFromRun(rest);
    BuiltByRun(buffer, lastSeparator, rest[0]);
    hide Run, Gap, Runs, AfterRun, Built, IsAlphanumeric;
    var run, after := rest[..Run(rest)], AfterRun(rest[Run(rest)..]);
    var taken := rest[1..][..Run(rest[1..])];
    Regroup(buffer, [rest[0]], taken);
    Regroup(buffer, run, after);
    assert Completed(buffer + [rest[0]], false, rest[1..]) == buffer + run + after;
    if buffer == "" {
      assert "" + run == run;
    }
  }

  lemma SkipGapCharacter(rest: string)
    requires rest != "" && !IsAlphanumeric(rest[0])
    ensures Runs(rest) == Runs(rest[1..])
  {
    assert rest[1..][Gap(rest[1..])..] == rest[Gap(rest)..];
  }

  lemma AfterRunIs(rest: string)
    requires rest != "" && !IsAlphanumeric(rest[0])
    ensures AfterRun(rest) == if Runs(rest) == "" then "" else [Mark(rest[0])] + Runs(rest)
  {
    var tail := rest[Gap(rest)..];
    RunsEmptyExactly(rest);
    if tail != "" {
      assert Gap(tail) == 0 && tail[0..] == tail;
    }
  }

  lemma BuiltByMark(buffer: string, m: char)
    requires Built(buffer, false) && buffer != "" && IsMark(m)
    ensures Built(buffer + [m], true)
  {
    hide IsMark;
  }

  lemma ReadSeparator(buffer: string, rest: string)
    requires Built(buffer, false) && buffer != "" && rest != "" && !IsAlphanumeric(rest[0])
    ensures Built(buffer + [Mark(rest[0])], true)
    ensures Completed(buffer + [Mark(rest[0])], true, rest[1..]) == Completed(buffer, false, rest)
  {
    SkipGapCharacter(rest);
    AfterRunIs(rest);
    BuiltByMark(buffer, Mark(rest[0]));
    assert Run(rest) == 0;
    hide Runs, AfterRun, Gap, Run, Built, Mark, IsAlphanumeric, IsMark;
    var marked := buffer + [Mark(rest[0])];
    assert buffer + rest[..0] == buffer && rest[0..] == rest;
    assert marked[..|marked| - 1] == buffer;
    Regroup(buffer, [Mark(rest[0])], Runs(rest));
    assert buffer + "" == buffer;
  }

  lemma TrimBuilt(buffer: string, lastSeparator: bool)
    requires Built(buffer, lastSeparator)
    ensures TrimMarks(buffer) == Completed(buffer, lastSeparator, "")
  {
    assert ""[..0] == "";
    assert buffer + "" + "" == buffer;
    assert Runs("") == "" && AfterRun("") == "";
    assert TrimMarksLeft(buffer) == buffer;
    if lastSeparator {
      var kept := buffer[..|buffer| - 1];
      assert kept[|kept| - 1] == buffer[|buffer| - 2];
      assert TrimMarksRight(kept) == kept;
    }
  }

  method SanitizeImageComponent(value: string, fallback: string, lower: Lower) returns (r: string)
    ensures r == ComponentOr(value, fallback, lower)
  {
    var text := ToLower(TrimSpace(value), lower);
    if text == "" {
      return fallback;
    }
    var buffer, lastSeparator := "", false;
    for i := 0 to |text|
      invariant Built(buffer, lastSeparator)
      invariant Completed(buffer, lastSeparator, text[i..]) == Runs(text)
    {
      var c := text[i];
      assert text[i..] != "" && text[i..][0] == c && text[i..][1..] == text[i + 1..];
      if IsAlphanumeric(c) {
        ReadAlphanumeric(buffer, lastSeparator, text[i..]);
        buffer, lastSeparator := buffer + [c], false;
        continue;
      }
      if buffer == "" || lastSeparator {
        SkipGapCharacter(text[i..]);
        continue;
      }
      ReadSeparator(buffer, text[i..]);
      match c {
        case '.' | '-' | '_' => buffer := buffer + [c];
        case _ => buffer := buffer + ['-'];
      }
      lastSeparator := true;
    }
    TrimBuilt(buffer, lastSeparator);
    var sanitized := TrimMarks(buffer);
    r := if sanitized == "" then fallback else sanitized;
  }

  // ------------------------------------------------------------------ what the runs mean

  /** A run and the gap that follows it. */
  datatype Piece = Piece(run: string, gap: string)

  /** Every run is non-empty, and so is every gap but the last, which may be. */
  predicate Segmented(pieces: seq<Piece>) {
    forall i :: 0 <= i < |pieces| ==>
      && pieces[i].run != "" && AllAlphanumeric(pieces[i].run) && NoneAlphanumeric(pieces[i].gap)
      && (i < |pieces| - 1 ==> pieces[i].gap != "")
  }

  function Laid(pieces: seq<Piece>): string {
    if pieces == [] then "" else pieces[0].run + pieces[0].gap + Laid(pieces[1..])
  }

  /** The runs joined by each inner gap's first character, or a dash for one that is neither dot nor underscore. */
  function Joined(pieces: seq<Piece>): string
    requires Segmented(pieces)
  {
    if pieces == [] then ""
    else if |pieces| == 1 then pieces[0].run
    else
      var c := pieces[0].gap[0];
      pieces[0].run + [if c == '.' || c == '_' then c else '-'] + Joined(pieces[1..])
  }

  /** However a text is read as alternating gaps and runs, the runs and the first character of each
      inner gap are what survives. */
  lemma {:induction false} RunsOfSegments(lead: string, pieces: seq<Piece>)
    requires NoneAlphanumeric(lead) && Segmented(pieces)
    ensures Runs(lead + Laid(pieces)) == Joined(pieces)
    decreases |pieces|
  {
    hide Run, Gap, Runs, AfterRun;
    if pieces == [] {
      GapOf(lead, "");
      RunsEmptyExactly(lead + "");
    } else {
      LaidStarts(pieces[1..]);
      RunsStep(lead, pieces[0].run, pieces[0].gap, Laid(pieces[1..]));
      RunsOfSegments("", pieces[1..]);
      assert "" + Laid(pieces[1..]) == Laid(pieces[1..]);
    }
  }

  /** Every text can be read that way. */
  lemma {:induction false} EveryTextIsSegmented(text: string) returns (lead: string, pieces: seq<Piece>)
    ensures NoneAlphanumeric(lead) && Segmented(pieces) && text == lead + Laid(pieces)
    decreases |text|
  {
    hide Run, Gap, Laid;
    LaidStarts([]);
    lead := text[..Gap(text)];
    var body := text[Gap(text)..];
    assert text == lead + body;
    if body == "" {
      pieces := [];
    } else {
      var n := Run(body);
      var gap, more := EveryTextIsSegmented(body[n..]);
      pieces := PutInFront(body[..n], gap, more);
      assert body == body[..n] + body[n..];
    }
  }

  /** However the trimmed and lowered value is read, its runs are what is left of it, and the fallback stands for
      a value without any. */
  lemma ComponentOfSegments(value: string, fallback: string, lower: Lower, lead: string, pieces: seq<Piece>)
    requires NoneAlphanumeric(lead) && Segmented(pieces)
    requires |lead + Laid(pieces)| == |TrimSpace(value)|
    requires forall k :: 0 <= k < |TrimSpace(value)| ==> (lead + Laid(pieces))[k] == lower(TrimSpace(value)[k])
    ensures ComponentOr(value, fallback, lower) == if pieces == [] then fallback else Joined(pieces)
  {
    assert Prepared(value, lower) == lead + Laid(pieces);
    RunsOfSegments(lead, pieces);
  }

  lemma PutInFront(run: string, gap: string, more: seq<Piece>) returns (pieces: seq<Piece>)
    requires run != "" && AllAlphanumeric(run) && NoneAlphanumeric(gap) && Segmented(more)
    requires gap + Laid(more) != "" ==> !IsAlphanumeric((gap + Laid(more))[0])
    ensures Segmented(pieces) && Laid(pieces) == run + (gap + Laid(more))
  {
    LaidStarts(more);
    pieces := [Piece(run, gap)] + more;
    assert pieces[1..] == more;
    Regroup(run, gap, Laid(more));
  }

  lemma LaidStarts(pieces: seq<Piece>)
    requires Segmented(pieces)
    ensures if pieces == [] then Laid(pieces) == "" else Laid(pieces) != "" && IsAlphanumeric(Laid(pieces)[0])
  {
  }

  // ------------------------------------------------------------------ the grammar

  /** The grammar by positions: marks stand alone, strictly between alphanumeric characters. */
  lemma {:induction false} ComponentShape(s: string)
    ensures Component(s) <==>
      && s != "" && IsAlphanumeric(s[0]) && IsAlphanumeric(s[|s| - 1])
      && (forall i :: 0 <= i < |s| ==> IsAlphanumeric(s[i]) || IsMark(s[i]))
      && (forall i :: 0 < i < |s| ==> IsAlphanumeric(s[i - 1]) || IsAlphanumeric(s[i]))
    decreases |s|
  {
    var n := Run(s);
    if 0 < n < |s| {
      var rest := s[n + 1..];
      ComponentShape(rest);
      if Component(s) {
        forall i | 0 <= i < |s| ensures IsAlphanumeric(s[i]) || IsMark(s[i]) {
          if i > n { assert s[i] == rest[i - n - 1]; }
        }
        forall i | 0 < i < |s| ensures IsAlphanumeric(s[i - 1]) || IsAlphanumeric(s[i]) {
          if i > n + 1 { assert s[i] == rest[i - n - 1] && s[i - 1] == rest[i - n - 2]; }
          if i == n + 1 { assert s[i] == rest[0]; }
        }
      }
    }
  }

  /** What survives is a component, if anything does. */
  lemma {:induction false} RunsAreComponents(s: string)
    requires Runs(s) != ""
    ensures Component(Runs(s))
    decreases |s|
  {
    var body := s[Gap(s)..];
    var run, rest := body[..Run(body)], body[Run(body)..];
    if Gap(rest) < |rest| {
      var tail := rest[Gap(rest)..];
      RunsEmptyExactly(tail);
      RunsAreComponents(tail);
      PrefixRun(run, Mark(rest[0]), Runs(tail));
    } else {
      assert Runs(s) == run;
      RunOf(run, "");
      assert run + "" == run;
    }
  }

  lemma PrefixRun(run: string, mark: char, rest: string)
    requires run != "" && AllAlphanumeric(run) && IsMark(mark) && Component(rest)
    ensures Component(run + ([mark] + rest))
  {
    RunOf(run, [mark] + rest);
    assert (run + ([mark] + rest))[|run| + 1..] == rest;
  }

  /** A component survives as it is. */
  lemma {:induction false} ComponentsAreFixed(s: string)
    requires Component(s)
    ensures Runs(s) == s
    decreases |s|
  {
    hide Runs, AfterRun;
    var n := Run(s);
    if n == |s| {
      assert s + "" + "" == s;
      FixedStep(s, "", "");
    } else {
      ComponentsAreFixed(s[n + 1..]);
      SplitAt(s, n);
      FixedStep(s[..n], [s[n]], s[n + 1..]);
    }
  }

  lemma FixedStep(run: string, mark: string, rest: string)
    requires run != "" && AllAlphanumeric(run) && NoneAlphanumeric(mark)
    requires if rest == "" then mark == "" else |mark| == 1 && IsMark(mark[0]) && IsAlphanumeric(rest[0])
    requires rest != "" ==> Runs(rest) == rest
    ensures Runs(run + mark + rest) == run + mark + rest
  {
    hide Run, Gap, Runs, AfterRun;
    RunsStep("", run, mark, rest);
    assert "" + (run + mark + rest) == run + mark + rest;
    if rest == "" {
      assert run + "" + "" == run;
    } else {
      assert [Mark(mark[0])] == mark;
    }
  }

  lemma SplitAt(s: string, n: nat)
    requires n < |s|
    ensures s == s[..n] + [s[n]] + s[n + 1..]
  {
  }

  lemma ComponentStarts(s: string)
    requires Component(s)
    ensures s != "" && IsAlphanumeric(s[0])
  {
  }

  lemma PreparedComponent(s: string, lower: Lower)
    requires Component(s)
    ensures Prepared(s, lower) == s
  {
    ComponentShape(s);
    assert TrimSpace(s) == s;
  }

  /** The results other than the fallback are exactly the components, and each component is its own. */
  lemma ResultsAreExactlyComponents(s: string, lower: Lower)
    ensures Component(s) <==> s != "" && exists value :: ComponentOr(value, "", lower) == s
    ensures Component(s) ==> forall fallback :: ComponentOr(s, fallback, lower) == s
  {
    if Component(s) {
      PreparedComponent(s, lower);
      ComponentsAreFixed(s);
      assert ComponentOr(s, "", lower) == s;
    }
    if value :| s != "" && ComponentOr(value, "", lower) == s {
      RunsAreComponents(Prepared(value, lower));
    }
  }

  /** The fallback is used exactly when nothing alphanumeric is left after lowering. */
  lemma FallbackExactly(value: string, fallback: string, lower: Lower)
    requires fallback == "" || Component(fallback)
    ensures NoneAlphanumeric(Prepared(value, lower)) <==> ComponentOr(value, "", lower) == ""
    ensures NoneAlphanumeric(Prepared(value, lower)) ==> ComponentOr(value, fallback, lower) == fallback
    ensures fallback != "" ==> Component(ComponentOr(value, fallback, lower))
  {
    var text := Prepared(value, lower);
    RunsEmptyExactly(text);
    if Runs(text) != "" {
      RunsAreComponents(text);
    }
  }

  /** Sanitising again changes nothing. */
  lemma SanitizingIsIdempotent(value: string, fallback: string, again: string, lower: Lower)
    requires Component(fallback)
    ensures ComponentOr(ComponentOr(value, fallback, lower), again, lower) == ComponentOr(value, fallback, lower)
  {
    FallbackExactly(value, fallback, lower);
    ResultsAreExactlyComponents(ComponentOr(value, fallback, lower), lower);
  }
}
