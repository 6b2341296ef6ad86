/** The colour choices of the `StatusBadge` and `ScoreBadge` components of
    src/App.jsx (lines 37-61) and the vacancy card's badge (line 430). A colour
    stands for the Tailwind class string the source attaches to it. */
module Badges {
  import opened Js
  import Rules

  datatype Tone = Blue | Purple | Green | Yellow | Red | Slate

  /** The `styles` table of StatusBadge (lines 38-45). */
  const Styles: map<string, Tone> := map[
    "New" := Blue, "Interview" := Purple, "Offer" := Green, "Rejected" := Red,
    "Active" := Green, "Archived" := Slate]

  /** `styles[status] || styles['New']`, with the status used as a property
      key, so a missing status is looked up as "undefined". */
  function StatusTone(status: JsValue): (t: Tone)
    ensures ToStr(status) in Styles ==> t == Styles[ToStr(status)]
    ensures ToStr(status) !in Styles ==> t == Blue
  {
    var key := ToStr(status);
    if key in Styles then Styles[key] else Styles["New"]
  }

  /** The four application statuses get four different colours, and every
      other status (including a missing one) looks like "New". */
  lemma StatusTonesOfWorkflow(other: string)
    requires other !in Styles
    ensures StatusTone(Str("New")) == Blue && StatusTone(Str("Interview")) == Purple
    ensures StatusTone(Str("Offer")) == Green && StatusTone(Str("Rejected")) == Red
    ensures StatusTone(Str(other)) == StatusTone(Str("New"))
    ensures StatusTone(Undefined) == StatusTone(Str("New"))
  {
    assert ToStr(Undefined) == "undefined";
    assert "undefined" !in Styles;
  }

  /** ScoreBadge (lines 53-55): nothing for a missing score; green from 80,
      yellow from 50, red below. The score is taken to be a number. */
  function ScoreTone(score: Option<int>): (t: Option<Tone>)
    ensures t.None? <==> score.None?
    ensures score.Some? && score.value >= 80 ==> t == Some(Green)
    ensures score.Some? && 50 <= score.value < 80 ==> t == Some(Yellow)
    ensures score.Some? && score.value < 50 ==> t == Some(Red)
  {
    match score
    case None => None
    case Some(n) => Some(if n >= 80 then Green else if n >= 50 then Yellow else Red)
  }

  /** A rank for the score colours: red below yellow below green. */
  function ScoreRank(t: Tone): nat {
    match t
    case Green => 2
    case Yellow => 1
    case _ => 0
  }

  /** A higher score never gets a worse colour. */
  lemma ScoreToneMonotone(a: int, b: int)
    requires a <= b
    ensures ScoreRank(ScoreTone(Some(a)).value) <= ScoreRank(ScoreTone(Some(b)).value)
  {
  }

  /** The badge of a vacancy card (line 430): "Archived" or "Active". */
  function VacancyBadge(job: Record): (badge: string)
    ensures badge == "Archived" <==> Truthy(Field(job, "is_archived"))
    ensures badge == "Active" <==> !Truthy(Field(job, "is_archived"))
  {
    if Truthy(Field(job, "is_archived")) then "Archived" else "Active"
  }

  /** The card's badge and its archive button agree: an archived card offers to
      dearchive, an active one to archive. */
  lemma BadgeMatchesArchiveAction(job: Record)
    ensures VacancyBadge(job) == "Archived" <==> Rules.ArchiveAction(job) == "dearchive"
    ensures VacancyBadge(job) == "Active" <==> Rules.ArchiveAction(job) == "archive"
  {
  }
}
