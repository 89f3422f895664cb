/**
 * Post-processing of the generative-text service's answers
 * (`services/geminiService.ts`). The request itself is foreign I/O: its
 * outcome arrives as a `Reply`, and both operations turn every outcome into a
 * value, never an error.
 */
module GeminiService {
  import opened Wrappers
  import opened Text

  /**
   * What `ai.models.generateContent` produced: it threw (`Failed`), or it
   * answered with a response whose `text` may be undefined.
   */
  datatype Reply = Failed | Answered(text: Option<string>)

  const CouldNotGenerate := "Could not generate suggestion."
  /** "Error generating suggestions. Please check your connection.", written as its two sentences. */
  const ConnectionTrouble := "Error generating suggestions." + " Please check your connection."

  /** Both apologies can be shown as they are: neither begins or ends with whitespace. */
  lemma ApologiesAreTrimmed()
    ensures CouldNotGenerate != [] && IsTrimmed(CouldNotGenerate)
    ensures ConnectionTrouble != [] && IsTrimmed(ConnectionTrouble)
  {
  }

  /** The text of an answer whose trim is non-empty, if there is one. */
  predicate HasContent(reply: Reply)
  {
    reply.Answered? && reply.text.Some? && !IsBlank(reply.text.value)
  }

  /**
   * `generateResumeContent`: the trimmed answer, the "could not generate"
   * apology for a missing or blank answer, or the connection apology when the
   * call threw. The caller can always display the result.
   */
  function GenerateResumeContent(reply: Reply): (r: string)
    ensures r != [] && IsTrimmed(r)
    ensures HasContent(reply) ==> r == Trim(reply.text.value)
    ensures reply.Answered? && !HasContent(reply) ==> r == CouldNotGenerate
    ensures reply.Failed? ==> r == ConnectionTrouble
  {
    ApologiesAreTrimmed();
    match reply
    case Failed => ConnectionTrouble
    case Answered(text) =>
      // `text?.trim() || fallback`: the trim is falsy exactly when the text is blank
      if text.Some? && !IsBlank(text.value) then Trim(text.value) else CouldNotGenerate
  }

  /**
   * `analyzeJobDescription`: the comma-separated pieces of the trimmed answer,
   * each trimmed, empty ones dropped; `[]` for a missing or blank answer and
   * for a failed call.
   */
  function AnalyzeJobDescription(reply: Reply): (r: seq<string>)
    ensures forall k :: 0 <= k < |r| ==> r[k] != [] && IsTrimmed(r[k])
    ensures !HasContent(reply) ==> r == []
    ensures HasContent(reply) ==> |r| <= multiset(reply.text.value)[','] + 1
  {
    match reply
    case Failed => []
    case Answered(answer) =>
      // `text?.trim() || ""` is empty exactly when the answer is missing or blank
      if answer.None? || IsBlank(answer.value) then []
      else
        var text := Trim(answer.value);
        TrimKeepsVisible(answer.value, ',');
        SplitCount(text, ',');
        var r := DropEmpty(MapTrim(Split(text, ',')));
        assert AllTrimmed(r);
        r
  }

  /**
   * The skills extracted from an answer are exactly the trimmed, non-blank
   * comma-separated pieces of its trimmed text, in order: the same projection
   * the preview applies to the skill list.
   */
  lemma {:induction false} AnalysisIsTrimmedNonBlankPieces(t: string)
    requires !IsBlank(t)
    ensures AnalyzeJobDescription(Answered(Some(t))) == TrimmedNonBlank(Split(Trim(t), ','))
  {
    DropEmptyOfTrimmed(Split(Trim(t), ','));
  }

  /** Every piece of a non-blank answer that has visible content is extracted, trimmed. */
  lemma EveryPieceIsExtracted(t: string, i: nat)
    requires !IsBlank(t)
    requires i < |Split(Trim(t), ',')| && !IsBlank(Split(Trim(t), ',')[i])
    ensures Trim(Split(Trim(t), ',')[i]) in AnalyzeJobDescription(Answered(Some(t)))
  {
    AnalysisIsTrimmedNonBlankPieces(t);
    TrimmedNonBlankKeepsItems(Split(Trim(t), ','), i);
  }

  /**
   * An answer that lists trimmed, non-empty, comma-free skills separated by
   * commas is extracted as exactly those skills, in the answer's order.
   */
  lemma AnalysisOfListedSkills(skills: seq<string>)
    requires |skills| >= 1
    requires forall k :: 0 <= k < |skills| ==> skills[k] != [] && IsTrimmed(skills[k]) && ',' !in skills[k]
    ensures AnalyzeJobDescription(Answered(Some(Join(skills, ",")))) == skills
  {
    var t := Join(skills, ",");
    JoinOfTrimmed(skills, ",");
    TrimmedIsFixed(t);
    AnalysisIsTrimmedNonBlankPieces(t);
    SplitJoin(skills, ',');
    TrimmedNonBlankOfTrimmed(skills);
  }
}
