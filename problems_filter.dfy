/**
 * The problem-list filter of Frontened/src/Problems.jsx (search term,
 * difficulty and category) and the difficulty label shown beside each problem.
 */
module ProblemsFilter {
  import opened Wrappers
  import opened Text
  import opened Seqs

  /** A problem as the list reads it; `None` is a missing property. */
  datatype ProblemInfo = ProblemInfo(
    title: Option<string>,
    tags: Option<seq<string>>,
    difficultyLevel: Option<string>)

  const All: string := "all"

  /** `tags?.some(tag => Lower(tag).includes(Lower(term)))`. */
  predicate SomeTagIncludes(tags: seq<string>, term: string)
  {
    exists i :: 0 <= i < |tags| && Includes(Lower(tags[i]), Lower(term))
  }

  /** `tags?.some(tag => Lower(tag) === Lower(category))`. */
  predicate SomeTagEquals(tags: seq<string>, category: string)
  {
    exists i :: 0 <= i < |tags| && Lower(tags[i]) == Lower(category)
  }

  /** The search term occurs, ignoring case, in the title or in some tag. */
  predicate MatchesSearch(p: ProblemInfo, searchTerm: string)
  {
    (p.title.Some? && Includes(Lower(p.title.value), Lower(searchTerm)))
    || (p.tags.Some? && SomeTagIncludes(p.tags.value, searchTerm))
  }

  /** "all", or the lower-cased level equals the selection as given (not lower-cased). */
  predicate MatchesDifficulty(p: ProblemInfo, selectedDifficulty: string)
  {
    selectedDifficulty == All
    || (p.difficultyLevel.Some? && Lower(p.difficultyLevel.value) == selectedDifficulty)
  }

  /** "all", or some tag equals the category, ignoring case. */
  predicate MatchesCategory(p: ProblemInfo, selectedCategory: string)
  {
    selectedCategory == All || (p.tags.Some? && SomeTagEquals(p.tags.value, selectedCategory))
  }

  predicate Keep(p: ProblemInfo, searchTerm: string, selectedDifficulty: string, selectedCategory: string)
  {
    MatchesSearch(p, searchTerm) && MatchesDifficulty(p, selectedDifficulty)
    && MatchesCategory(p, selectedCategory)
  }

  /** filteredProblems: `problems.filter(...)`. */
  function FilteredProblems(
    problems: seq<ProblemInfo>, searchTerm: string, selectedDifficulty: string, selectedCategory: string)
    : (r: seq<ProblemInfo>)
    ensures |r| <= |problems|
    ensures forall i :: 0 <= i < |r| ==> Keep(r[i], searchTerm, selectedDifficulty, selectedCategory)
  {
    if problems == [] then []
    else
      var rest := FilteredProblems(problems[1..], searchTerm, selectedDifficulty, selectedCategory);
      if Keep(problems[0], searchTerm, selectedDifficulty, selectedCategory) then [problems[0]] + rest
      else rest
  }

  /** The filtered list is an order-preserving subsequence that loses no kept problem. */
  lemma {:induction false} FilteredIsSubsequence(
    problems: seq<ProblemInfo>, searchTerm: string, selectedDifficulty: string, selectedCategory: string)
    ensures IsSubsequence(FilteredProblems(problems, searchTerm, selectedDifficulty, selectedCategory), problems)
    ensures forall i :: 0 <= i < |problems| ==>
      Keep(problems[i], searchTerm, selectedDifficulty, selectedCategory) ==>
        problems[i] in FilteredProblems(problems, searchTerm, selectedDifficulty, selectedCategory)
  {
    if problems != [] {
      var tail := problems[1..];
      FilteredIsSubsequence(tail, searchTerm, selectedDifficulty, selectedCategory);
      assert forall i :: 1 <= i < |problems| ==> problems[i] == tail[i - 1];
      var rest := FilteredProblems(tail, searchTerm, selectedDifficulty, selectedCategory);
      if !Keep(problems[0], searchTerm, selectedDifficulty, selectedCategory) {
        SubsequenceSkip(rest, tail, problems[0]);
        assert [problems[0]] + tail == problems;
      }
    }
  }

  /**
   * `filter` keeps every copy of a kept problem and no copy of any other: each
   * value occurs in the filtered list exactly as often as in the list, or not
   * at all.
   */
  lemma {:induction false} FilteredCount(
    problems: seq<ProblemInfo>, searchTerm: string, selectedDifficulty: string, selectedCategory: string,
    x: ProblemInfo)
    ensures multiset(FilteredProblems(problems, searchTerm, selectedDifficulty, selectedCategory))[x]
      == if Keep(x, searchTerm, selectedDifficulty, selectedCategory) then multiset(problems)[x] else 0
  {
    if problems != [] {
      FilteredCount(problems[1..], searchTerm, selectedDifficulty, selectedCategory, x);
      assert problems == [problems[0]] + problems[1..];
    }
  }

  /** Filtering an already filtered list changes nothing. */
  lemma {:induction false} FilterIdempotent(
    problems: seq<ProblemInfo>, searchTerm: string, selectedDifficulty: string, selectedCategory: string)
    ensures var once := FilteredProblems(problems, searchTerm, selectedDifficulty, selectedCategory);
      FilteredProblems(once, searchTerm, selectedDifficulty, selectedCategory) == once
  {
    if problems != [] {
      FilterIdempotent(problems[1..], searchTerm, selectedDifficulty, selectedCategory);
      var once := FilteredProblems(problems, searchTerm, selectedDifficulty, selectedCategory);
      if Keep(problems[0], searchTerm, selectedDifficulty, selectedCategory) {
        assert once[1..] == FilteredProblems(problems[1..], searchTerm, selectedDifficulty, selectedCategory);
      }
    }
  }

  /** The search ignores case: an upper-cased term selects the same problems. */
  lemma SearchIgnoresCase(p: ProblemInfo, searchTerm: string)
    ensures MatchesSearch(p, Upper(searchTerm)) == MatchesSearch(p, searchTerm)
  {
    LowerOfUpper(searchTerm);
  }

  /**
   * With an empty search and both selections "all", a problem is kept exactly
   * when it has a title or at least one tag.
   */
  lemma EmptySearchKeeps(p: ProblemInfo)
    ensures Keep(p, "", All, All) <==> p.title.Some? || (p.tags.Some? && |p.tags.value| > 0)
  {
    if p.title.Some? {
      IncludesEmpty(Lower(p.title.value));
    }
    if p.tags.Some? && |p.tags.value| > 0 {
      IncludesEmpty(Lower(p.tags.value[0]));
    }
  }

  /** A difficulty selection holding an upper-case letter matches no problem. */
  lemma UpperCaseDifficultyMatchesNothing(p: ProblemInfo, selectedDifficulty: string, i: nat)
    requires i < |selectedDifficulty| && IsUpper(selectedDifficulty[i])
    ensures !MatchesDifficulty(p, selectedDifficulty)
  {
    if p.difficultyLevel.Some? && Lower(p.difficultyLevel.value) == selectedDifficulty {
      LowerHasNoUpper(p.difficultyLevel.value, i);
    }
  }

  // ---------------------------------------------------------------------------
  // Difficulty label
  // ---------------------------------------------------------------------------

  /**
   * `level ? level.charAt(0).toUpperCase() + level.slice(1) : "Unknown"`;
   * a missing or empty level is falsy.
   */
  function DifficultyLabel(level: Option<string>): (r: string)
    ensures r != []
  {
    if level.None? || level.value == "" then "Unknown"
    else [UpperChar(level.value[0])] + level.value[1..]
  }

  /**
   * A present level keeps its length and everything after the first
   * character, starts with no lower-case letter, and reads the same ignoring case.
   */
  lemma DifficultyLabelOfLevel(level: string)
    requires level != ""
    ensures var r := DifficultyLabel(Some(level));
      |r| == |level| && r[1..] == level[1..] && !IsLower(r[0]) && Lower(r) == Lower(level)
  {
    var r := DifficultyLabel(Some(level));
    assert LowerChar(UpperChar(level[0])) == LowerChar(level[0]);
    assert forall i :: 0 <= i < |r| ==> Lower(r)[i] == Lower(level)[i];
  }

  lemma DifficultyLabelExamples()
    ensures DifficultyLabel(Some("easy")) == "Easy"
    ensures DifficultyLabel(None) == "Unknown" && DifficultyLabel(Some("")) == "Unknown"
  {
  }
}
