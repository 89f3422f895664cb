/**
 * The skills part of the editor form (`components/Editor.tsx`): the
 * comma-separated textarea, the AI "Suggest by Title" merge, adding a skill
 * extracted from a job description, and the job-description panel.
 */
module Skills {
  import opened Text
  import opened ResumeTypes
  import opened GeminiService

  // ---------------------------------------------------------------------------
  // The textarea: shown as `skills.join(', ')`, read back with
  // `value.split(',').map(s => s.trimLeft())`

  /** `skills.join(', ')`: no skills show as no text, one skill as itself. */
  function JoinSkills(skills: seq<string>): (r: string)
    ensures skills == [] ==> r == []
    ensures |skills| == 1 ==> r == skills[0]
  {
    Join(skills, ", ")
  }

  /**
   * The textarea's text lists the skills in order: it starts with the first
   * and ends with the last, with one comma between neighbours when no skill
   * holds a comma of its own; no skills show as no text.
   */
  lemma JoinSkillsListsSkills(skills: seq<string>)
    ensures skills == [] ==> JoinSkills(skills) == []
    ensures |skills| >= 1 ==> var r := JoinSkills(skills);
      |skills[0]| <= |r| && r[..|skills[0]|] == skills[0]
    ensures |skills| >= 1 ==> var r, last := JoinSkills(skills), skills[|skills| - 1];
      |last| <= |r| && r[|r| - |last|..] == last
    ensures |skills| >= 1 && (forall k :: 0 <= k < |skills| ==> ',' !in skills[k]) ==>
      multiset(JoinSkills(skills))[','] == |skills| - 1
  {
    if skills != [] {
      JoinEnds(skills, ", ");
      assert multiset(", ")[','] == 1 by {
        assert ", " == [','] + [' '];
      }
      if forall k :: 0 <= k < |skills| ==> ',' !in skills[k] {
        JoinCount(skills, ", ", ',');
      }
    }
  }

  /** No item starts with whitespace. */
  predicate NoLeadingWhitespace(xs: seq<string>)
  {
    forall k :: 0 <= k < |xs| ==> xs[k] == [] || !IsWhitespace(xs[k][0])
  }

  /** `xs.map(s => s.trimLeft())`. */
  function MapTrimStart(xs: seq<string>): (r: seq<string>)
    ensures |r| == |xs|
    ensures forall k :: 0 <= k < |r| ==> r[k] == TrimStart(xs[k])
  {
    seq(|xs|, k requires 0 <= k < |xs| => TrimStart(xs[k]))
  }

  /** The textarea's `onChange`: one skill per comma-separated piece, leading whitespace removed. */
  function ParseSkills(text: string): (r: seq<string>)
    ensures |r| == multiset(text)[','] + 1
    ensures NoLeadingWhitespace(r)
    ensures forall k :: 0 <= k < |r| ==> ',' !in r[k]
  {
    var pieces := Split(text, ',');
    var r := MapTrimStart(pieces);
    SplitCount(text, ',');
    assert forall k :: 0 <= k < |r| ==> ',' !in r[k] by {
      forall k | 0 <= k < |r|
        ensures ',' !in r[k]
      {
        TrimStartDropsBlankPrefix(pieces[k]);
        assert r[k] == pieces[k][|pieces[k]| - |r[k]|..];
      }
    }
    r
  }

  /** A space in front of a text joins the first piece of its split. */
  lemma SplitAfterSpace(rest: string)
    ensures var p := Split(rest, ',');
      Split([' '] + rest, ',') == [[' '] + p[0]] + p[1..]
  {
    assert ([' '] + rest)[1..] == rest;
  }

  lemma SplitAfterComma(x: string, rest: string)
    requires ',' !in x
    ensures var p := Split(rest, ',');
      Split(x + ", " + rest, ',') == [x] + ([[' '] + p[0]] + p[1..])
  {
    assert x + ", " + rest == x + [','] + ([' '] + rest);
    SplitAfterPiece(x, ',', [' '] + rest);
    SplitAfterSpace(rest);
  }

  /** `trimLeft` is applied piece by piece, so it distributes over concatenation. */
  lemma MapTrimStartAppend(a: seq<string>, b: seq<string>)
    ensures MapTrimStart(a + b) == MapTrimStart(a) + MapTrimStart(b)
  {
    var l := MapTrimStart(a + b);
    var m := MapTrimStart(a) + MapTrimStart(b);
    forall k | 0 <= k < |l|
      ensures l[k] == m[k]
    {
      if k >= |a| {
        assert (a + b)[k] == b[k - |a|];
      }
    }
  }

  /** Leading whitespace is dropped piece by piece, so a space joined to the second piece vanishes. */
  lemma MapTrimStartAfterSpace(x: string, p: seq<string>)
    requires p != []
    ensures MapTrimStart([x] + ([[' '] + p[0]] + p[1..])) == [TrimStart(x)] + MapTrimStart(p)
  {
    var spaced := [' '] + p[0];
    var q := [spaced] + p[1..];
    MapTrimStartAppend([x], q);
    MapTrimStartAppend([spaced], p[1..]);
    TrimStartSkipsBlank([' '], p[0]);
    assert MapTrimStart([spaced]) == MapTrimStart([p[0]]);
    assert [p[0]] + p[1..] == p;
    MapTrimStartAppend([p[0]], p[1..]);
  }

  /** A comma-free first skill followed by `", "` reads back as itself followed by the rest. */
  lemma ParseSkillsAfterPiece(x: string, rest: string)
    requires ',' !in x
    ensures ParseSkills(x + ", " + rest) == [TrimStart(x)] + ParseSkills(rest)
  {
    var p := Split(rest, ',');
    SplitAfterComma(x, rest);
    MapTrimStartAfterSpace(x, p);
  }

  /**
   * What the textarea shows, read back unchanged, gives the same skills,
   * provided there is at least one skill, none contains a comma and none
   * starts with whitespace.
   */
  lemma {:induction false} SkillsRoundTrip(skills: seq<string>)
    requires |skills| >= 1
    requires forall k :: 0 <= k < |skills| ==> ',' !in skills[k]
    requires NoLeadingWhitespace(skills)
    ensures ParseSkills(JoinSkills(skills)) == skills
    decreases |skills|
  {
    if |skills| == 1 {
      SplitWithoutSeparator(skills[0], ',');
    } else {
      var tail := skills[1..];
      JoinSkillsCons(skills);
      ParseSkillsAfterPiece(skills[0], JoinSkills(tail));
      SkillsRoundTrip(tail);
      assert skills == [skills[0]] + tail;
    }
  }

  /** With two or more skills, the first is followed by `", "` and the text of the rest. */
  lemma JoinSkillsCons(skills: seq<string>)
    requires |skills| >= 2
    ensures JoinSkills(skills) == skills[0] + ", " + JoinSkills(skills[1..])
  {
  }

  /** The empty list does not survive the round trip: `[].join(', ')` reads back as `['']`. */
  lemma EmptySkillsReadBackAsOneBlank()
    ensures ParseSkills(JoinSkills([])) == [""]
  {
  }

  // ---------------------------------------------------------------------------
  // "Suggest by Title": `[...skills, ...val.split(',').map(s => s.trim())]`
  // filtered by `(v, i, a) => a.indexOf(v) === i`

  /** `a.indexOf(x)`: the first index holding `x`, or -1. */
  function IndexOf<T(==)>(a: seq<T>, x: T): (r: int)
    ensures -1 <= r < |a|
    ensures r == -1 <==> x !in a
    ensures r >= 0 ==> a[r] == x && x !in a[..r]
    decreases |a|
  {
    if a == [] then -1
    else if a[0] == x then 0
    else
      var k := IndexOf(a[1..], x);
      if k == -1 then -1
      else
        assert a[..k + 1] == [a[0]] + a[1..][..k];
        k + 1
  }

  /**
   * The filter applied to the first `n` items of `a`: an item is kept when it
   * is the first occurrence of its value in `a`.
   */
  function FirstOccurrences<T(==,!new)>(a: seq<T>, n: nat): (r: seq<T>)
    requires n <= |a|
    ensures NoDuplicates(r)
    ensures forall x :: x in r <==> x in a[..n]
    ensures forall j :: 0 <= j < |r| ==> 0 <= IndexOf(a, r[j]) < n
    ensures forall i, j :: 0 <= i < j < |r| ==> IndexOf(a, r[i]) < IndexOf(a, r[j])
    decreases n
  {
    if n == 0 then []
    else
      var prev := FirstOccurrences(a, n - 1);
      assert a[..n] == a[..n - 1] + [a[n - 1]];
      if IndexOf(a, a[n - 1]) == n - 1 then prev + [a[n - 1]]
      else
        assert a[n - 1] in a[..n - 1];
        prev
  }

  /** The filter only looks at the prefix it runs over. */
  lemma {:induction false} FirstOccurrencesOfPrefix<T(!new)>(a: seq<T>, b: seq<T>, n: nat)
    requires n <= |a|
    ensures FirstOccurrences(a + b, n) == FirstOccurrences(a, n)
    decreases n
  {
    if n > 0 {
      FirstOccurrencesOfPrefix(a, b, n - 1);
      var x := a[n - 1];
      assert (a + b)[n - 1] == x;
      IndexOfPrefix(a, b, x);
    }
  }

  lemma {:induction false} IndexOfPrefix<T>(a: seq<T>, b: seq<T>, x: T)
    requires x in a
    ensures IndexOf(a + b, x) == IndexOf(a, x)
    decreases |a|
  {
    if a[0] != x {
      assert (a + b)[1..] == a[1..] + b;
      IndexOfPrefix(a[1..], b, x);
    }
  }

  /** A list without duplicates is its own filter. */
  lemma {:induction false} FirstOccurrencesOfDistinct<T(!new)>(a: seq<T>, n: nat)
    requires n <= |a| && NoDuplicates(a)
    ensures FirstOccurrences(a, n) == a[..n]
    decreases n
  {
    if n > 0 {
      FirstOccurrencesOfDistinct(a, n - 1);
      var k := IndexOf(a, a[n - 1]);
      assert k == n - 1;
      assert a[..n] == a[..n - 1] + [a[n - 1]];
    }
  }

  /**
   * The AI suggestion's comma-separated pieces, trimmed: one more than there
   * are commas, none holding a comma or loose whitespace at either end.
   */
  function SuggestedSkills(suggestion: string): (r: seq<string>)
    ensures |r| == multiset(suggestion)[','] + 1
    ensures AllTrimmed(r)
    ensures forall k :: 0 <= k < |r| ==> ',' !in r[k]
  {
    SplitCount(suggestion, ',');
    MapTrimKeepsOut(Split(suggestion, ','), ',');
    MapTrim(Split(suggestion, ','))
  }

  /**
   * The merged skill list "Suggest by Title" passes to `onChange`: no
   * duplicates, and exactly the old skills and the trimmed suggestions.
   */
  function MergeSuggestedSkills(skills: seq<string>, suggestion: string): (r: seq<string>)
    ensures NoDuplicates(r)
    ensures forall x :: x in r <==> x in skills || x in SuggestedSkills(suggestion)
  {
    var all := skills + SuggestedSkills(suggestion);
    assert all[..|all|] == all;
    FirstOccurrences(all, |all|)
  }

  /** A duplicate-free skill list stays in place at the head of the merge. */
  lemma MergeKeepsSkills(skills: seq<string>, suggestion: string)
    requires NoDuplicates(skills)
    ensures var r := MergeSuggestedSkills(skills, suggestion);
      |r| >= |skills| && r[..|skills|] == skills
  {
    var all := skills + SuggestedSkills(suggestion);
    FirstOccurrencesGrow(all, |skills|, |all|);
    FirstOccurrencesOfPrefix(skills, SuggestedSkills(suggestion), |skills|);
    FirstOccurrencesOfDistinct(skills, |skills|);
    assert skills[..|skills|] == skills;
  }

  /** Running the filter further only appends. */
  lemma {:induction false} FirstOccurrencesGrow<T(!new)>(a: seq<T>, n: nat, m: nat)
    requires n <= m <= |a|
    ensures |FirstOccurrences(a, n)| <= |FirstOccurrences(a, m)|
    ensures FirstOccurrences(a, m)[..|FirstOccurrences(a, n)|] == FirstOccurrences(a, n)
    decreases m - n
  {
    if n < m {
      FirstOccurrencesGrow(a, n, m - 1);
      var p := FirstOccurrences(a, m - 1);
      assert FirstOccurrences(a, m)[..|p|] == p;
    }
  }

  /**
   * When the suggestion call fails, its apology is merged in as a skill: the
   * message has no comma, so it is one piece.
   */
  lemma FailedSuggestionBecomesSkill(skills: seq<string>)
    ensures ConnectionTrouble in MergeSuggestedSkills(skills, GenerateResumeContent(Failed))
  {
    var apology := GenerateResumeContent(Failed);
    assert apology == ConnectionTrouble;
    ConnectionTroubleIsOnePiece();
    ApologiesAreTrimmed();
    SuggestionWithoutComma(apology);
    assert apology in SuggestedSkills(apology);
  }

  lemma ConnectionTroubleIsOnePiece()
    ensures ',' !in ConnectionTrouble
  {
    assert ',' !in "Error generating suggestions.";
    assert ',' !in " Please check your connection.";
  }

  /** A trimmed suggestion without a comma is a single suggested skill. */
  lemma SuggestionWithoutComma(t: string)
    requires ',' !in t && IsTrimmed(t)
    ensures SuggestedSkills(t) == [t]
  {
    SplitWithoutSeparator(t, ',');
    TrimmedIsFixed(t);
  }

  // ---------------------------------------------------------------------------
  // `addSkill`: a suggested skill chip was clicked

  predicate IsQuote(c: char)
  {
    c == '\'' || c == '"'
  }

  /** Every character is a quote. */
  predicate AllQuotes(t: string)
  {
    forall k :: 0 <= k < |t| ==> IsQuote(t[k])
  }

  /**
   * `s` is `p + r + q`, where `p` is the leading quote of `s` if it has one,
   * and `q` is the quote ending what is left after `p`, if there is one.
   */
  predicate QuotesAround(s: string, p: string, r: string, q: string)
  {
    s == p + r + q && |p| <= 1 && |q| <= 1 && AllQuotes(p) && AllQuotes(q)
    && (p != [] <==> |s| > 0 && IsQuote(s[0]))
    && (q != [] <==> |s| > |p| && IsQuote(s[|s| - 1]))
  }

  /**
   * `skill.replace(/^['"]|['"]$/g, '')`: one quote off each end at most, and
   * a lone quote is removed once.
   */
  function StripQuotes(s: string): (r: string)
    ensures |s| - 2 <= |r| <= |s|
    ensures r == s <==> s == [] || (!IsQuote(s[0]) && !IsQuote(s[|s| - 1]))
    ensures exists p, q :: QuotesAround(s, p, r, q)
  {
    var lead := |s| > 0 && IsQuote(s[0]);
    var t := if lead then s[1..] else s;
    var trail := |t| > 0 && IsQuote(t[|t| - 1]);
    var r := if trail then t[..|t| - 1] else t;
    var p: string := if lead then [s[0]] else [];
    var q: string := if trail then [t[|t| - 1]] else [];
    assert t == r + q;
    assert s == p + t;
    assert QuotesAround(s, p, r, q);
    r
  }

  /** A skill wrapped in quotes of either kind loses exactly those two quotes. */
  lemma StripQuotesOfQuoted(open: char, x: string, close: char)
    requires IsQuote(open) && IsQuote(close)
    ensures StripQuotes([open] + x + [close]) == x
  {
    var s := [open] + x + [close];
    assert s[1..] == x + [close];
    assert (x + [close])[..|x|] == x;
  }

  /**
   * `addSkill`: the cleaned skill is appended unless already present, in
   * which case the document is left as it is.
   */
  function AddSkill(d: ResumeData, skill: string): (r: ResumeData)
    ensures StripQuotes(skill) in r.skills
    ensures StripQuotes(skill) in d.skills ==> r == d
    ensures StripQuotes(skill) !in d.skills ==>
      |r.skills| == |d.skills| + 1 && r.skills[..|d.skills|] == d.skills
    ensures NoDuplicates(d.skills) ==> NoDuplicates(r.skills)
    ensures r.(skills := d.skills) == d
  {
    var clean := StripQuotes(skill);
    if clean in d.skills then d
    else d.(skills := d.skills + [clean])
  }

  /** `onChange({ ...data, skills: ... })` from the textarea: only the skills change. */
  function WithSkillsText(d: ResumeData, text: string): (r: ResumeData)
    ensures r.skills == ParseSkills(text)
    ensures r.(skills := d.skills) == d
  {
    d.(skills := ParseSkills(text))
  }

  /** `onChange({ ...data, skills: ... })` from "Suggest by Title": only the skills change. */
  function WithSuggestedSkills(d: ResumeData, suggestion: string): (r: ResumeData)
    ensures r.skills == MergeSuggestedSkills(d.skills, suggestion)
    ensures r.(skills := d.skills) == d
  {
    d.(skills := MergeSuggestedSkills(d.skills, suggestion))
  }

  /** Adding the same chip twice is adding it once. */
  lemma AddSkillIdempotent(d: ResumeData, skill: string)
    ensures AddSkill(AddSkill(d, skill), skill) == AddSkill(d, skill)
  {
  }

  // ---------------------------------------------------------------------------
  // The job-description panel: `jdText`, `jdSkills`, `isAnalyzingJd`

  /** The panel's local state; the pending analysis is the request's text. */
  class JobDescriptionPanel {
    var jdText: string
    var jdSkills: seq<string>
    var isAnalyzingJd: bool
    var pending: seq<string>

    constructor ()
      ensures jdText == "" && jdSkills == [] && !isAnalyzingJd && pending == []
    {
      jdText, jdSkills, isAnalyzingJd, pending := "", [], false, [];
    }

    /** The "Analyze & Extract Skills" button is enabled. */
    function AnalyzeEnabled(): (b: bool)
      reads this
      ensures b <==> !isAnalyzingJd && !IsBlank(jdText)
    {
      !isAnalyzingJd && Trim(jdText) != ""
    }

    method EditText(text: string)
      modifies this
      ensures jdText == text
      ensures jdSkills == old(jdSkills) && isAnalyzingJd == old(isAnalyzingJd) && pending == old(pending)
    {
      jdText := text;
    }

    /** `handleAnalyzeJd` up to its `await`: nothing at all happens for a blank text. */
    method HandleAnalyzeJd()
      modifies this
      ensures IsBlank(old(jdText)) ==> unchanged(this)
      ensures !IsBlank(old(jdText)) ==>
        isAnalyzingJd && pending == old(pending) + [jdText]
        && jdText == old(jdText) && jdSkills == old(jdSkills)
    {
      if Trim(jdText) == "" {
        return;
      }
      isAnalyzingJd := true;
      pending := pending + [jdText];
    }

    /**
     * `handleAnalyzeJd` after its `await`, for any outstanding request (replies
     * may settle in any order): the extracted skills replace the list shown.
     */
    method AnalysisSettled(request: nat, reply: Reply)
      requires request < |pending|
      modifies this
      ensures jdSkills == AnalyzeJobDescription(reply)
      ensures forall k :: 0 <= k < |jdSkills| ==> jdSkills[k] != [] && IsTrimmed(jdSkills[k])
      ensures !isAnalyzingJd && jdText == old(jdText)
      ensures pending == old(pending)[..request] + old(pending)[request + 1..]
    {
      jdSkills := AnalyzeJobDescription(reply);
      isAnalyzingJd := false;
      pending := pending[..request] + pending[request + 1..];
    }
  }
}
