/** The size-adaptive diff summariser of the command-line front end
    (`MRDescriptionGenerator._smart_truncate_diff` in cli.py).

    A diff longer than `maxSize` characters is split into lines and scanned
    once. The scan counts file headers, added and deleted lines, keeps the
    structure of the first 15 files (file headers, file metadata, hunk
    headers) and keeps content lines only while fewer than `maxSize / 2`
    lines have been kept. It stops at the 16th file header. The summary is a
    fixed 9-line header block with the counts, the kept lines and, when the
    file cap was hit, a 4-line trailer.

    `SmartTruncate` states the result in closed form; `TruncateDiff` is the
    single pass over the lines in `_smart_truncate_diff`, proved to compute
    it. */
module DiffTruncator {
  import opened Seqs
  import opened Text

  /** How many files keep their lines in a summary. */
  const MaxFilesToShow: nat := 15

  // ---------------------------------------------------------------- line kinds

  predicate IsFileHeader(line: string) {
    StartsWith(line, "diff --git")
  }

  /** `index ...`, `--- a/...` and `+++ b/...` lines. */
  predicate IsMetadata(line: string) {
    StartsWith(line, "index ") || StartsWith(line, "---") || StartsWith(line, "+++")
  }

  predicate IsHunkHeader(line: string) {
    StartsWith(line, "@@")
  }

  /** An added line; `+++` is a file-metadata line, not an addition. */
  predicate IsAddition(line: string) {
    StartsWith(line, "+") && !StartsWith(line, "+++")
  }

  /** A deleted line; `---` is a file-metadata line, not a deletion. */
  predicate IsDeletion(line: string) {
    StartsWith(line, "-") && !StartsWith(line, "---")
  }

  /** Lines kept regardless of the content budget. */
  predicate IsStructural(line: string) {
    IsFileHeader(line) || IsMetadata(line) || IsHunkHeader(line)
  }

  /** Added, deleted and context lines: kept only within the budget. */
  predicate IsContent(line: string) {
    !IsStructural(line)
  }

  predicate IsNonBlank(line: string) {
    !IsBlank(line)
  }

  /** Which branch of the scan's `if`/`elif` chain a line takes. */
  datatype LineKind = FileHeader | Metadata | HunkHeader | Addition | Deletion | Context

  function Kind(line: string): LineKind {
    if StartsWith(line, "diff --git") then FileHeader
    else if StartsWith(line, "index ") || StartsWith(line, "---") || StartsWith(line, "+++") then Metadata
    else if StartsWith(line, "@@") then HunkHeader
    else if StartsWith(line, "+") && !StartsWith(line, "+++") then Addition
    else if StartsWith(line, "-") && !StartsWith(line, "---") then Deletion
    else Context
  }

  function Headers(lines: seq<string>): nat {
    |Filter(lines, IsFileHeader)|
  }

  function NonBlank(lines: seq<string>): seq<string> {
    Filter(lines, IsNonBlank)
  }

  lemma {:induction false} StartsWithHead(s: string, p: string)
    requires |p| > 0 && StartsWith(s, p)
    ensures s[0] == p[0]
  {
    assert s[..|p|][0] == s[0];
  }

  /** The branch a line takes agrees with the line predicates: the chain
      never sends an addition or deletion to an earlier branch, and
      structural, added and deleted lines are never blank. */
  lemma {:induction false} LineKinds(line: string)
    ensures Kind(line) == FileHeader <==> IsFileHeader(line)
    ensures Kind(line) == Addition <==> IsAddition(line)
    ensures Kind(line) == Deletion <==> IsDeletion(line)
    ensures Kind(line) in {FileHeader, Metadata, HunkHeader} <==> IsStructural(line)
    ensures Kind(line) != Context ==> IsNonBlank(line)
  {
    if |line| > 0 {
      var c := line[0];
      if StartsWith(line, "diff --git") { StartsWithHead(line, "diff --git"); }
      if StartsWith(line, "index ") { StartsWithHead(line, "index "); }
      if StartsWith(line, "---") { StartsWithHead(line, "---"); }
      if StartsWith(line, "+++") { StartsWithHead(line, "+++"); }
      if StartsWith(line, "@@") { StartsWithHead(line, "@@"); }
      if StartsWith(line, "+") { StartsWithHead(line, "+"); }
      if StartsWith(line, "-") { StartsWithHead(line, "-"); }
      assert Kind(line) != Context ==> !IsSpace(c);
    }
  }

  // ---------------------------------------------------------------- where the scan stops

  /** The index of the file header preceded by exactly `n` file headers, or
      `|lines|` when there are at most `n` of them. */
  function NthHeader(lines: seq<string>, n: nat): (k: nat)
    ensures k <= |lines|
    ensures k < |lines| ==> IsFileHeader(lines[k]) && Headers(lines[..k]) == n
    ensures k == |lines| ==> Headers(lines) <= n
    decreases |lines|
  {
    if |lines| == 0 then 0
    else if IsFileHeader(lines[0]) && n == 0 then 0
    else
      var k' := NthHeader(lines[1..], if IsFileHeader(lines[0]) then n - 1 else n);
      assert lines[..1 + k'][1..] == lines[1..][..k'];
      assert lines == [lines[0]] + lines[1..];
      1 + k'
  }

  /** The part of `lines` the scan reads: everything before the 16th file
      header. */
  function Scanned(lines: seq<string>): seq<string> {
    lines[..NthHeader(lines, MaxFilesToShow)]
  }

  lemma {:induction false} HeadersMonotone(lines: seq<string>, a: nat, b: nat)
    requires a <= b <= |lines|
    ensures Headers(lines[..a]) <= Headers(lines[..b])
  {
    assert lines[..b] == lines[..a] + lines[a..b];
    FilterConcat(lines[..a], lines[a..b], IsFileHeader);
  }

  /** One more line of a prefix, seen by every counter of the scan. */
  lemma {:induction false} PrefixStep(lines: seq<string>, i: nat)
    requires i < |lines|
    ensures lines[..i + 1] == lines[..i] + [lines[i]]
    ensures Headers(lines[..i + 1]) == Headers(lines[..i]) + (if IsFileHeader(lines[i]) then 1 else 0)
    ensures |Filter(lines[..i + 1], IsAddition)| == |Filter(lines[..i], IsAddition)| + (if IsAddition(lines[i]) then 1 else 0)
    ensures |Filter(lines[..i + 1], IsDeletion)| == |Filter(lines[..i], IsDeletion)| + (if IsDeletion(lines[i]) then 1 else 0)
    ensures NonBlank(lines[..i + 1]) == NonBlank(lines[..i]) + (if IsNonBlank(lines[i]) then [lines[i]] else [])
  {
    assert lines[..i + 1] == lines[..i] + [lines[i]];
    FilterSnoc(lines[..i], lines[i], IsFileHeader);
    FilterSnoc(lines[..i], lines[i], IsAddition);
    FilterSnoc(lines[..i], lines[i], IsDeletion);
    FilterSnoc(lines[..i], lines[i], IsNonBlank);
  }

  /** A file header with exactly `n` headers before it is the one
      `NthHeader` finds. */
  lemma {:induction false} NthHeaderUnique(lines: seq<string>, i: nat, n: nat)
    requires i < |lines| && IsFileHeader(lines[i]) && Headers(lines[..i]) == n
    ensures NthHeader(lines, n) == i
  {
    var k := NthHeader(lines, n);
    PrefixStep(lines, i);
    assert Headers(lines[..i + 1]) == n + 1;
    if k < i {
      assert IsFileHeader(lines[k]) && Headers(lines[..k]) == n;
      PrefixStep(lines, k);
      assert Headers(lines[..k + 1]) == n + 1;
      HeadersMonotone(lines, k + 1, i);
    } else if k > i {
      assert lines[..|lines|] == lines;
      assert Headers(lines[..k]) <= n;
      HeadersMonotone(lines, i + 1, k);
    }
  }

  // ---------------------------------------------------------------- what is kept

  /** The lines a scan keeps, in closed form: of the non-blank lines `nb`,
      the first `budget` are kept whatever they are (while fewer than
      `budget` lines are kept every non-blank line is kept), and after them
      only the structural ones. */
  function Keep(nb: seq<string>, budget: nat): seq<string> {
    var m := Min(budget, |nb|);
    nb[..m] + Filter(nb[m..], IsStructural)
  }

  /** `max_size // 2` as a line budget; a negative budget keeps no content. */
  function ContentBudget(maxSize: int): nat {
    if maxSize / 2 < 0 then 0 else maxSize / 2
  }

  /** Fewer than `budget` lines are kept exactly while fewer than `budget`
      non-blank lines have been seen. */
  lemma {:induction false} KeepBelowBudget(nb: seq<string>, budget: nat)
    ensures |Keep(nb, budget)| < budget <==> |nb| < budget
  {
  }

  /** Keeping one more non-blank line: it is appended when the budget is not
      yet used up or when it is structural, and dropped otherwise. */
  lemma {:induction false} KeepSnoc(nb: seq<string>, x: string, budget: nat)
    ensures Keep(nb + [x], budget)
         == if |nb| < budget || IsStructural(x) then Keep(nb, budget) + [x] else Keep(nb, budget)
  {
    var nb' := nb + [x];
    if |nb| < budget {
      assert nb'[..|nb'|] == nb';
      assert nb[..|nb|] == nb;
      assert nb'[|nb'|..] == [];
      assert nb[|nb|..] == [];
    } else {
      assert nb'[..budget] == nb[..budget];
      assert nb'[budget..] == nb[budget..] + [x];
      FilterSnoc(nb[budget..], x, IsStructural);
    }
  }

  /** The kept lines after one more line of the input: the line is appended
      when it is non-blank and either structural or within the budget. */
  lemma {:induction false} KeepStep(lines: seq<string>, i: nat, budget: nat)
    requires i < |lines|
    ensures var before := Keep(NonBlank(lines[..i]), budget);
            Keep(NonBlank(lines[..i + 1]), budget)
            == if IsNonBlank(lines[i]) && (|before| < budget || IsStructural(lines[i]))
               then before + [lines[i]] else before
  {
    var nb := NonBlank(lines[..i]);
    PrefixStep(lines, i);
    if IsNonBlank(lines[i]) {
      KeepSnoc(nb, lines[i], budget);
      KeepBelowBudget(nb, budget);
    } else {
      assert NonBlank(lines[..i + 1]) == nb + [] == nb;
    }
  }

  // ---------------------------------------------------------------- the summary

  /** The statistics and kept lines of one scan. */
  datatype Summary = Summary(
    filesChanged: nat,
    additions: nat,
    deletions: nat,
    filesShown: nat,
    retained: seq<string>)

  /** What the scan of `lines` produces, stated without the scan: the file
      count saturates at 16 (the header that stops the scan is counted),
      additions and deletions are those of the scanned part, and the kept
      lines are given by `Keep`. */
  function ExpectedSummary(lines: seq<string>, maxSize: int): Summary {
    var scanned := Scanned(lines);
    Summary(
      Min(Headers(lines), MaxFilesToShow + 1),
      |Filter(scanned, IsAddition)|,
      |Filter(scanned, IsDeletion)|,
      Min(Headers(lines), MaxFilesToShow),
      Keep(NonBlank(scanned), ContentBudget(maxSize)))
  }

  const HeaderLineCount: nat := 9
  const TrailerLineCount: nat := 4

  /** The trailer line that reports how many files were left out. */
  function OmittedNotice(omitted: nat): string {
    "... и еще " + NatToString(omitted) + " файлов не показаны для экономии места"
  }

  /** The text around the numbers of the header block. */
  const SizeLabel := "Оригинальный размер: "
  const SizeUnit := " символов"
  const FilesLabel := "Файлов изменено: "
  const AddedLabel := "Добавлено строк: "
  const DeletedLabel := "Удалено строк: "
  const ShownLabel := "Показаны первые "
  const OfLabel := " файлов из "

  /** The fixed block that opens every summary: banner, the four counts
      (thousands grouped with commas), the files-shown line and the heading
      of the kept lines. */
  function HeaderBlock(originalSize: nat, s: Summary): (r: seq<string>)
    ensures |r| == HeaderLineCount
  {
    var shown := if s.filesShown <= MaxFilesToShow then s.filesShown else MaxFilesToShow;
    [
      "=== УМНОЕ РЕЗЮМЕ DIFF'А ===",
      SizeLabel + Grouped(originalSize) + SizeUnit,
      FilesLabel + Grouped(s.filesChanged),
      AddedLabel + Grouped(s.additions),
      DeletedLabel + Grouped(s.deletions),
      ShownLabel + NatToString(shown) + OfLabel + NatToString(s.filesChanged),
      "",
      "=== КЛЮЧЕВЫЕ ИЗМЕНЕНИЯ ===",
      ""
    ]
  }

  /** The closing lines, present only when more than 15 files were seen. */
  function Trailer(s: Summary): (r: seq<string>)
    ensures |r| == if s.filesChanged > MaxFilesToShow then TrailerLineCount else 0
  {
    if s.filesChanged > MaxFilesToShow then
      ["", OmittedNotice(s.filesChanged - MaxFilesToShow), "", "[АВТОМАТИЧЕСКИ СОКРАЩЕНО ДЛЯ ОБРАБОТКИ ИИ]"]
    else []
  }

  /** The lines of the summary: the header block with the counts, the kept
      lines, and the trailer when more than 15 files were seen. */
  function Report(originalSize: nat, s: Summary): (r: seq<string>)
    ensures |r| == HeaderLineCount + |s.retained|
                   + (if s.filesChanged > MaxFilesToShow then TrailerLineCount else 0)
    ensures r[HeaderLineCount..HeaderLineCount + |s.retained|] == s.retained
    ensures s.filesChanged > MaxFilesToShow ==> r[|r| - 3] == OmittedNotice(s.filesChanged - MaxFilesToShow)
  {
    HeaderBlock(originalSize, s) + s.retained + Trailer(s)
  }

  /** The summariser's result: the diff itself when it fits in `maxSize`
      characters, otherwise the report lines joined by newlines. */
  function SmartTruncate(diff: string, maxSize: int): (r: string)
    ensures |diff| <= maxSize ==> r == diff
  {
    if |diff| <= maxSize then diff
    else Join(Report(|diff|, ExpectedSummary(Split(diff, '\n'), maxSize)), '\n')
  }

  /** The scan's counters and kept lines part-way through. */
  datatype ScanState = ScanState(
    filesChanged: nat,
    additions: nat,
    deletions: nat,
    filesShown: nat,
    important: seq<string>)

  /** One turn of the loop over the lines in `_smart_truncate_diff`: the
      `if`/`elif` chain on the line kind. On a file header past the cap only
      the file count moves: that is the turn that ends the scan. */
  function Step(st: ScanState, line: string, maxSize: int): ScanState {
    var room := st.filesShown <= MaxFilesToShow;
    var budgetLeft := |st.important| < maxSize / 2;
    match Kind(line)
    case FileHeader =>
      if st.filesShown < MaxFilesToShow
      then st.(filesChanged := st.filesChanged + 1, important := st.important + [line],
               filesShown := st.filesShown + 1)
      else st.(filesChanged := st.filesChanged + 1)
    case Metadata =>
      if room then st.(important := st.important + [line]) else st
    case HunkHeader =>
      if room then st.(important := st.important + [line]) else st
    case Addition =>
      var st' := st.(additions := st.additions + 1);
      if room && budgetLeft then st'.(important := st.important + [line]) else st'
    case Deletion =>
      var st' := st.(deletions := st.deletions + 1);
      if room && budgetLeft then st'.(important := st.important + [line]) else st'
    case Context =>
      if room && budgetLeft && |Strip(line)| > 0 then st.(important := st.important + [line]) else st
  }

  /** The state after scanning `lines[..i]`, in closed form. */
  predicate ScannedUpTo(lines: seq<string>, i: nat, budget: nat, st: ScanState)
    requires i <= |lines|
  {
    && st.filesChanged == st.filesShown == Headers(lines[..i])
    && st.filesShown <= MaxFilesToShow
    && st.additions == |Filter(lines[..i], IsAddition)|
    && st.deletions == |Filter(lines[..i], IsDeletion)|
    && st.important == Keep(NonBlank(lines[..i]), budget)
  }

  /** Before the scan's end a file header always finds room: fewer than 15
      files have been shown. */
  lemma {:induction false} HeaderHasRoom(lines: seq<string>, i: nat, budget: nat, st: ScanState)
    requires i < NthHeader(lines, MaxFilesToShow)
    requires ScannedUpTo(lines, i, budget, st)
    ensures Kind(lines[i]) == FileHeader ==> st.filesShown < MaxFilesToShow
  {
    LineKinds(lines[i]);
    if Kind(lines[i]) == FileHeader && st.filesShown >= MaxFilesToShow {
      NthHeaderUnique(lines, i, MaxFilesToShow);
    }
  }

  /** A turn that does not end the scan moves the counters one line on. */
  lemma {:induction false} StepCounts(lines: seq<string>, i: nat, maxSize: int, st: ScanState)
    requires i < NthHeader(lines, MaxFilesToShow)
    requires ScannedUpTo(lines, i, ContentBudget(maxSize), st)
    ensures var st' := Step(st, lines[i], maxSize);
            && st'.filesChanged == st'.filesShown == Headers(lines[..i + 1])
            && st'.filesShown <= MaxFilesToShow
            && st'.additions == |Filter(lines[..i + 1], IsAddition)|
            && st'.deletions == |Filter(lines[..i + 1], IsDeletion)|
  {
    PrefixStep(lines, i);
    LineKinds(lines[i]);
    HeaderHasRoom(lines, i, ContentBudget(maxSize), st);
  }

  /** A turn that does not end the scan keeps what `Keep` keeps. */
  lemma {:induction false} StepKeeps(lines: seq<string>, i: nat, maxSize: int, st: ScanState)
    requires i < NthHeader(lines, MaxFilesToShow)
    requires ScannedUpTo(lines, i, ContentBudget(maxSize), st)
    ensures Step(st, lines[i], maxSize).important == Keep(NonBlank(lines[..i + 1]), ContentBudget(maxSize))
  {
    var line := lines[i];
    var budget := ContentBudget(maxSize);
    LineKinds(line);
    KeepStep(lines, i, budget);
    HeaderHasRoom(lines, i, budget, st);
    assert (|st.important| < maxSize / 2) == (|st.important| < budget);
    if Kind(line) == Context {
      StripEmptyIffBlank(line);
    }
  }

  /** A turn that does not end the scan moves the closed form one line on. */
  lemma {:induction false} StepPreserves(lines: seq<string>, i: nat, maxSize: int, st: ScanState)
    requires i < NthHeader(lines, MaxFilesToShow)
    requires ScannedUpTo(lines, i, ContentBudget(maxSize), st)
    ensures ScannedUpTo(lines, i + 1, ContentBudget(maxSize), Step(st, lines[i], maxSize))
  {
    StepCounts(lines, i, maxSize, st);
    StepKeeps(lines, i, maxSize, st);
  }

  /** The turn on the 16th file header: the scan stops there. */
  lemma {:induction false} StopsAtCap(lines: seq<string>, i: nat, budget: nat, st: ScanState)
    requires i < |lines| && ScannedUpTo(lines, i, budget, st)
    ensures (Kind(lines[i]) == FileHeader && st.filesShown >= MaxFilesToShow)
            <==> i == NthHeader(lines, MaxFilesToShow)
  {
    LineKinds(lines[i]);
    var k := NthHeader(lines, MaxFilesToShow);
    if IsFileHeader(lines[i]) && st.filesShown >= MaxFilesToShow {
      NthHeaderUnique(lines, i, MaxFilesToShow);
    }
    if i == k {
      assert IsFileHeader(lines[k]);
    }
  }

  function AsSummary(st: ScanState): Summary {
    Summary(st.filesChanged, st.additions, st.deletions, st.filesShown, st.important)
  }

  /** The turn on the 16th file header completes the expected summary. */
  lemma {:induction false} StopTurn(lines: seq<string>, maxSize: int, st: ScanState)
    requires NthHeader(lines, MaxFilesToShow) < |lines|
    requires ScannedUpTo(lines, NthHeader(lines, MaxFilesToShow), ContentBudget(maxSize), st)
    ensures AsSummary(Step(st, lines[NthHeader(lines, MaxFilesToShow)], maxSize)) == ExpectedSummary(lines, maxSize)
  {
    var i := NthHeader(lines, MaxFilesToShow);
    LineKinds(lines[i]);
    PrefixStep(lines, i);
    HeadersMonotone(lines, i + 1, |lines|);
    assert lines[..|lines|] == lines;
    assert Headers(lines) >= MaxFilesToShow + 1;
  }

  /** A scan that reaches the end of the input completes the expected
      summary. */
  lemma {:induction false} EndTurn(lines: seq<string>, maxSize: int, st: ScanState)
    requires NthHeader(lines, MaxFilesToShow) == |lines|
    requires ScannedUpTo(lines, |lines|, ContentBudget(maxSize), st)
    ensures AsSummary(st) == ExpectedSummary(lines, maxSize)
  {
    assert lines[..|lines|] == lines;
  }

  /** The single pass over the lines in `_smart_truncate_diff`, with its
      counters and guards, stopping at the 16th file header. */
  method ScanLines(lines: seq<string>, maxSize: int) returns (summary: Summary)
    ensures summary == ExpectedSummary(lines, maxSize)
  {
    var st := ScanState(0, 0, 0, 0, []);
    var i := 0;
    ghost var budget := ContentBudget(maxSize);
    ghost var stop := NthHeader(lines, MaxFilesToShow);
    while i < |lines|
      invariant i <= stop
      invariant ScannedUpTo(lines, i, budget, st)
    {
      var line := lines[i];
      StopsAtCap(lines, i, budget, st);
      if Kind(line) == FileHeader && st.filesShown >= MaxFilesToShow {
        StopTurn(lines, maxSize, st);
        return AsSummary(Step(st, line, maxSize));
      }
      StepPreserves(lines, i, maxSize, st);
      st := Step(st, line, maxSize);
      i := i + 1;
    }
    EndTurn(lines, maxSize, st);
    summary := AsSummary(st);
  }

  // ---------------------------------------------------------------- properties of the summary

  /** The scan reads every line when there are at most 15 files, and
      otherwise exactly the first 15 files. */
  lemma {:induction false} ScannedHeaders(lines: seq<string>)
    ensures Headers(Scanned(lines)) == Min(Headers(lines), MaxFilesToShow)
    ensures Scanned(lines) == lines <==> Headers(lines) <= MaxFilesToShow
  {
    var k := NthHeader(lines, MaxFilesToShow);
    assert lines[..|lines|] == lines;
    if k < |lines| {
      PrefixStep(lines, k);
      HeadersMonotone(lines, k + 1, |lines|);
      assert |Scanned(lines)| < |lines|;
    }
  }

  /** Structural lines never fail the blank test. */
  lemma StructuralNonBlank()
    ensures forall x | IsStructural(x) :: IsNonBlank(x)
  {
    forall x | IsStructural(x)
      ensures IsNonBlank(x)
    {
      LineKinds(x);
    }
  }

  /** The kept lines appear in the input, in input order. */
  lemma {:induction false} RetainedIsSubsequence(lines: seq<string>, maxSize: int)
    ensures IsSubsequence(ExpectedSummary(lines, maxSize).retained, lines)
    ensures forall x | x in ExpectedSummary(lines, maxSize).retained :: x in lines
  {
    var scanned := Scanned(lines);
    var nb := NonBlank(scanned);
    var retained := Keep(nb, ContentBudget(maxSize));
    assert ExpectedSummary(lines, maxSize).retained == retained;
    KeepIsSubsequence(nb, ContentBudget(maxSize));
    FilterIsSubsequence(scanned, IsNonBlank);
    PrefixIsSubsequence(lines, NthHeader(lines, MaxFilesToShow));
    SubsequenceTransitive(nb, scanned, lines);
    SubsequenceTransitive(retained, nb, lines);
    SubsequenceMembers(retained, lines);
  }

  /** Keeping only drops lines. */
  lemma KeepIsSubsequence(nb: seq<string>, budget: nat)
    ensures IsSubsequence(Keep(nb, budget), nb)
  {
    var m := Min(budget, |nb|);
    SubsequenceReflexive(nb[..m]);
    FilterIsSubsequence(nb[m..], IsStructural);
    SubsequenceConcat(nb[..m], Filter(nb[m..], IsStructural), nb[..m], nb[m..]);
    assert nb[..m] + nb[m..] == nb;
  }

  /** Every file header, metadata line and hunk header of the first 15 files
      is kept, whatever the budget; so the kept lines name exactly the files
      the summary says it shows. */
  lemma {:induction false} StructureRetained(lines: seq<string>, maxSize: int)
    ensures Filter(ExpectedSummary(lines, maxSize).retained, IsStructural) == Filter(Scanned(lines), IsStructural)
    ensures Headers(ExpectedSummary(lines, maxSize).retained) == ExpectedSummary(lines, maxSize).filesShown
  {
    var scanned := Scanned(lines);
    var retained := Keep(NonBlank(scanned), ContentBudget(maxSize));
    KeepStructure(NonBlank(scanned), ContentBudget(maxSize));
    StructuralNonBlank();
    FilterImplied(scanned, IsNonBlank, IsStructural);
    StructureHeaders(retained, scanned);
    ScannedHeaders(lines);
  }

  /** Keeping drops no structural line. */
  lemma {:induction false} KeepStructure(nb: seq<string>, budget: nat)
    ensures Filter(Keep(nb, budget), IsStructural) == Filter(nb, IsStructural)
  {
    var m := Min(budget, |nb|);
    FilterConcat(nb[..m], Filter(nb[m..], IsStructural), IsStructural);
    FilterIdempotent(nb[m..], IsStructural);
    FilterConcat(nb[..m], nb[m..], IsStructural);
    assert nb[..m] + nb[m..] == nb;
  }

  /** Two sequences with the same structural lines have the same file
      headers. */
  lemma StructureHeaders(a: seq<string>, b: seq<string>)
    requires Filter(a, IsStructural) == Filter(b, IsStructural)
    ensures Headers(a) == Headers(b)
  {
    assert forall x | IsFileHeader(x) :: IsStructural(x);
    FilterImplied(a, IsStructural, IsFileHeader);
    FilterImplied(b, IsStructural, IsFileHeader);
  }

  /** Content lines are kept only within the budget of `maxSize / 2` lines,
      no blank line is kept, and when the scanned part has no more non-blank
      lines than the budget every one of them is kept. */
  lemma {:induction false} ContentWithinBudget(lines: seq<string>, maxSize: int)
    ensures |Filter(ExpectedSummary(lines, maxSize).retained, IsContent)| <= ContentBudget(maxSize)
    ensures forall j | 0 <= j < |ExpectedSummary(lines, maxSize).retained| :: IsNonBlank(ExpectedSummary(lines, maxSize).retained[j])
    ensures |NonBlank(Scanned(lines))| <= ContentBudget(maxSize) ==> ExpectedSummary(lines, maxSize).retained == NonBlank(Scanned(lines))
  {
    var nb := NonBlank(Scanned(lines));
    var m := Min(ContentBudget(maxSize), |nb|);
    var retained := Keep(nb, ContentBudget(maxSize));
    FilterConcat(nb[..m], Filter(nb[m..], IsStructural), IsContent);
    FilterDisjoint(nb[m..], IsStructural, IsContent);
    StructuralNonBlank();
    forall j | 0 <= j < |retained|
      ensures IsNonBlank(retained[j])
    {
      if j >= m {
        assert retained[j] == Filter(nb[m..], IsStructural)[j - m];
      }
    }
    if |nb| <= ContentBudget(maxSize) {
      assert nb[..m] == nb;
      assert nb[m..] == [];
    }
  }

  /** Rendered numbers are digits and commas only. */
  lemma NumbersSingleLine(n: nat)
    ensures '\n' !in Grouped(n) && '\n' !in NatToString(n)
  {
    var g, d := Grouped(n), NatToString(n);
    assert forall i | 0 <= i < |g| :: g[i] != '\n';
    assert forall i | 0 <= i < |d| :: d[i] != '\n';
  }

  /** The banner, the original size and the file count are single lines. */
  lemma HeaderLinesSingleA(originalSize: nat, s: Summary, k: nat)
    requires k < 3
    ensures '\n' !in HeaderBlock(originalSize, s)[k]
  {
    NumbersSingleLine(originalSize);
    NumbersSingleLine(s.filesChanged);
    if k == 0 {
      assert '\n' !in "=== УМНОЕ РЕЗЮМЕ DIFF'А ===";
    } else if k == 1 {
      assert '\n' !in SizeLabel && '\n' !in SizeUnit;
    } else {
      assert '\n' !in FilesLabel;
    }
  }

  /** The addition, deletion and files-shown lines are single lines. */
  lemma HeaderLinesSingleB(originalSize: nat, s: Summary, k: nat)
    requires 3 <= k < 6
    ensures '\n' !in HeaderBlock(originalSize, s)[k]
  {
    var shown := if s.filesShown <= MaxFilesToShow then s.filesShown else MaxFilesToShow;
    NumbersSingleLine(s.additions);
    NumbersSingleLine(s.deletions);
    NumbersSingleLine(s.filesChanged);
    NumbersSingleLine(shown);
    if k == 3 {
      assert '\n' !in AddedLabel;
    } else if k == 4 {
      assert '\n' !in DeletedLabel;
    } else {
      assert '\n' !in ShownLabel && '\n' !in OfLabel;
    }
  }

  /** The blank lines and the heading of the kept lines are single lines. */
  lemma HeaderLinesSingleC(originalSize: nat, s: Summary, k: nat)
    requires 6 <= k < HeaderLineCount
    ensures '\n' !in HeaderBlock(originalSize, s)[k]
  {
    if k == 7 {
      assert '\n' !in "=== КЛЮЧЕВЫЕ ИЗМЕНЕНИЯ ===";
    }
  }

  lemma {:induction false} HeaderBlockSingle(originalSize: nat, s: Summary)
    ensures forall k | 0 <= k < HeaderLineCount :: '\n' !in HeaderBlock(originalSize, s)[k]
  {
    forall k | 0 <= k < HeaderLineCount
      ensures '\n' !in HeaderBlock(originalSize, s)[k]
    {
      if k < 3 {
        HeaderLinesSingleA(originalSize, s, k);
      } else if k < 6 {
        HeaderLinesSingleB(originalSize, s, k);
      } else {
        HeaderLinesSingleC(originalSize, s, k);
      }
    }
  }

  lemma OmittedNoticeSingle(omitted: nat)
    ensures '\n' !in OmittedNotice(omitted)
  {
    NumbersSingleLine(omitted);
    assert '\n' !in "... и еще ";
    assert '\n' !in " файлов не показаны для экономии места";
  }

  lemma {:induction false} TrailerSingle(s: Summary)
    ensures forall k | 0 <= k < |Trailer(s)| :: '\n' !in Trailer(s)[k]
  {
    if s.filesChanged > MaxFilesToShow {
      var t := Trailer(s);
      forall k | 0 <= k < |t|
        ensures '\n' !in t[k]
      {
        if k == 1 {
          OmittedNoticeSingle(s.filesChanged - MaxFilesToShow);
        } else if k == 3 {
          assert '\n' !in "[АВТОМАТИЧЕСКИ СОКРАЩЕНО ДЛЯ ОБРАБОТКИ ИИ]";
        }
      }
    }
  }

  /** No line of a report contains a newline when no kept line does. */
  lemma {:induction false} ReportLinesSingle(originalSize: nat, s: Summary)
    requires forall x | x in s.retained :: '\n' !in x
    ensures forall k | 0 <= k < |Report(originalSize, s)| :: '\n' !in Report(originalSize, s)[k]
  {
    var h, t := HeaderBlock(originalSize, s), Trailer(s);
    var r := Report(originalSize, s);
    HeaderBlockSingle(originalSize, s);
    TrailerSingle(s);
    forall k | 0 <= k < |r|
      ensures '\n' !in r[k]
    {
      if k < |h| {
        assert r[k] == h[k];
      } else if k < |h| + |s.retained| {
        assert r[k] == s.retained[k - |h|];
      } else {
        assert r[k] == t[k - |h| - |s.retained|];
      }
    }
  }

  /** Above the size limit, the lines of the result are exactly the report
      lines: the header block, the kept lines and the optional trailer. */
  lemma {:induction false} SummaryLines(diff: string, maxSize: int)
    requires |diff| > maxSize
    ensures Split(SmartTruncate(diff, maxSize), '\n') == Report(|diff|, ExpectedSummary(Split(diff, '\n'), maxSize))
  {
    var lines := Split(diff, '\n');
    var s := ExpectedSummary(lines, maxSize);
    RetainedIsSubsequence(lines, maxSize);
    ReportLinesSingle(|diff|, s);
    SplitJoin(Report(|diff|, s), '\n');
  }

  /** `line` is `lead`, then a number that reads as `n`, then `suffix`. */
  predicate ShowsCount(line: string, lead: string, n: nat, suffix: string) {
    |line| >= |lead| + |suffix|
    && line[..|lead|] == lead
    && line[|line| - |suffix|..] == suffix
    && ReadsAs(line[|lead|..|line| - |suffix|], n)
  }

  lemma ShowsRendered(lead: string, number: string, suffix: string, n: nat)
    requires ReadsAs(number, n)
    ensures ShowsCount(lead + number + suffix, lead, n, suffix)
  {
    var line := lead + number + suffix;
    assert line[..|lead|] == lead;
    assert line[|line| - |suffix|..] == suffix;
    assert line[|lead|..|line| - |suffix|] == number;
  }

  lemma ShowsGrouped(line: string, lead: string, n: nat, suffix: string)
    requires line == lead + Grouped(n) + suffix
    ensures ShowsCount(line, lead, n, suffix)
  {
    GroupedValue(n);
    ShowsRendered(lead, Grouped(n), suffix, n);
  }

  lemma ShowsDecimal(line: string, lead: string, n: nat, suffix: string)
    requires line == lead + NatToString(n) + suffix
    ensures ShowsCount(line, lead, n, suffix)
  {
    DecimalReads(n);
    ShowsRendered(lead, NatToString(n), suffix, n);
  }

  /** The lines of the header block that carry numbers, as their parts. */
  lemma HeaderParts(h: seq<string>, originalSize: nat, s: Summary)
    requires h == HeaderBlock(originalSize, s)
    ensures h[1] == SizeLabel + Grouped(originalSize) + SizeUnit
    ensures h[2] == FilesLabel + Grouped(s.filesChanged) + ""
    ensures h[3] == AddedLabel + Grouped(s.additions) + ""
    ensures h[4] == DeletedLabel + Grouped(s.deletions) + ""
    ensures h[5] == ShownLabel + NatToString(Min(s.filesShown, MaxFilesToShow)) + (OfLabel + NatToString(s.filesChanged))
    ensures h[5] == (ShownLabel + NatToString(Min(s.filesShown, MaxFilesToShow)) + OfLabel) + NatToString(s.filesChanged) + ""
  {
    var shown := NatToString(Min(s.filesShown, MaxFilesToShow));
    assert ShownLabel + shown + (OfLabel + NatToString(s.filesChanged))
        == ShownLabel + shown + OfLabel + NatToString(s.filesChanged);
  }

  /** The header block shows the summary's numbers: the original size, the
      file count, the additions and the deletions with their thousands
      grouped, then how many files are shown (at most 15) out of the count. */
  lemma HeaderCounts(out: seq<string>, originalSize: nat, s: Summary)
    requires out == Report(originalSize, s)
    ensures ShowsCount(out[1], SizeLabel, originalSize, SizeUnit)
    ensures ShowsCount(out[2], FilesLabel, s.filesChanged, "")
    ensures ShowsCount(out[3], AddedLabel, s.additions, "")
    ensures ShowsCount(out[4], DeletedLabel, s.deletions, "")
    ensures ShowsCount(out[5], ShownLabel, Min(s.filesShown, MaxFilesToShow), OfLabel + NatToString(s.filesChanged))
    ensures ShowsCount(out[5], ShownLabel + NatToString(Min(s.filesShown, MaxFilesToShow)) + OfLabel, s.filesChanged, "")
  {
    var h := HeaderBlock(originalSize, s);
    assert out[..HeaderLineCount] == h;
    assert out[1] == h[1] && out[2] == h[2] && out[3] == h[3] && out[4] == h[4] && out[5] == h[5];
    HeaderParts(h, originalSize, s);
    ShowsGrouped(h[1], SizeLabel, originalSize, SizeUnit);
    ShowsGrouped(h[2], FilesLabel, s.filesChanged, "");
    ShowsGrouped(h[3], AddedLabel, s.additions, "");
    ShowsGrouped(h[4], DeletedLabel, s.deletions, "");
    ShowsDecimal(h[5], ShownLabel, Min(s.filesShown, MaxFilesToShow), OfLabel + NatToString(s.filesChanged));
    ShowsDecimal(h[5], ShownLabel + NatToString(Min(s.filesShown, MaxFilesToShow)) + OfLabel, s.filesChanged, "");
  }

  /** Above the size limit, the second to sixth lines of the result show
      the diff's length, the file count (saturating at 16), the added and
      deleted lines of the scanned files, and the number of files shown (at
      most 15) out of that count. */
  lemma SummaryHeaderCounts(diff: string, maxSize: int, out: seq<string>)
    requires |diff| > maxSize
    requires out == Split(SmartTruncate(diff, maxSize), '\n')
    ensures |out| >= HeaderLineCount
    ensures ShowsCount(out[1], SizeLabel, |diff|, SizeUnit)
    ensures ShowsCount(out[2], FilesLabel, Min(Headers(Split(diff, '\n')), MaxFilesToShow + 1), "")
    ensures ShowsCount(out[3], AddedLabel, |Filter(Scanned(Split(diff, '\n')), IsAddition)|, "")
    ensures ShowsCount(out[4], DeletedLabel, |Filter(Scanned(Split(diff, '\n')), IsDeletion)|, "")
    ensures ShowsCount(out[5], ShownLabel, Min(Headers(Split(diff, '\n')), MaxFilesToShow),
                       OfLabel + NatToString(Min(Headers(Split(diff, '\n')), MaxFilesToShow + 1)))
  {
    var lines := Split(diff, '\n');
    var s := ExpectedSummary(lines, maxSize);
    SummaryLines(diff, maxSize);
    assert out == Report(|diff|, s);
    HeaderCounts(out, |diff|, s);
    assert s.filesChanged == Min(Headers(lines), MaxFilesToShow + 1);
    assert Min(s.filesShown, MaxFilesToShow) == Min(Headers(lines), MaxFilesToShow);
  }

  /** What a report shows of its file count: the banner first, and the
      trailer exactly when more than 15 files were counted, reporting how
      many beyond 15 there were. */
  lemma ReportFacts(out: seq<string>, originalSize: nat, s: Summary, headers: nat)
    requires out == Report(originalSize, s)
    requires s.filesChanged == Min(headers, MaxFilesToShow + 1)
    ensures out[0] == "=== УМНОЕ РЕЗЮМЕ DIFF'А ==="
    ensures |out| == HeaderLineCount + |s.retained| + TrailerLineCount <==> headers > MaxFilesToShow
    ensures headers > MaxFilesToShow ==> out[|out| - 3] == OmittedNotice(1)
  {
    var h := HeaderBlock(originalSize, s);
    assert h[0] == "=== УМНОЕ РЕЗЮМЕ DIFF'А ===";
    assert out[0] == h[0];
    if headers > MaxFilesToShow {
      assert s.filesChanged - MaxFilesToShow == 1;
    }
  }

  /** Above the size limit the result opens with the summary banner, and it
      ends with the omitted-files trailer exactly when the diff has more than
      15 file headers. Because the scan stops at the 16th header, the trailer
      always reports a single omitted file. */
  lemma {:induction false} TrailerIffTooManyFiles(diff: string, maxSize: int)
    requires |diff| > maxSize
    ensures var out := Split(SmartTruncate(diff, maxSize), '\n');
            && out[0] == "=== УМНОЕ РЕЗЮМЕ DIFF'А ==="
            && (|out| == HeaderLineCount + |ExpectedSummary(Split(diff, '\n'), maxSize).retained| + TrailerLineCount
                <==> Headers(Split(diff, '\n')) > MaxFilesToShow)
            && (Headers(Split(diff, '\n')) > MaxFilesToShow ==> out[|out| - 3] == OmittedNotice(1))
  {
    var lines := Split(diff, '\n');
    var s := ExpectedSummary(lines, maxSize);
    SummaryLines(diff, maxSize);
    ReportFacts(Split(SmartTruncate(diff, maxSize), '\n'), |diff|, s, Headers(lines));
  }

  /** `_smart_truncate_diff`: the diff itself when it fits, otherwise the
      scan's report joined with newlines. */
  method TruncateDiff(diff: string, maxSize: int) returns (r: string)
    ensures r == SmartTruncate(diff, maxSize)
  {
    if |diff| <= maxSize {
      return diff;
    }
    var lines := Split(diff, '\n');
    var summary := ScanLines(lines, maxSize);
    r := Join(Report(|diff|, summary), '\n');
  }
}
