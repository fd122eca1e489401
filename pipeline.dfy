/** The closed enumerations of the tracker: the seven pipeline statuses of an
    application, the six places a vacancy can come from and the three todo
    priorities, with the text each is stored and sent as. */
module Pipeline {
  import opened Base

  datatype Status = Saved | Applied | Screening | Test | Interview | Offer | Rejected

  /** The statuses in pipeline order, as the boards lay out their columns. */
  const AllStatuses: seq<Status> := [Saved, Applied, Screening, Test, Interview, Offer, Rejected]

  /** Every status is listed, exactly once. */
  lemma AllStatusesComplete(s: Status)
    ensures s in AllStatuses
    ensures |AllStatuses| == 7
    ensures forall i, j :: 0 <= i < j < |AllStatuses| ==> AllStatuses[i] != AllStatuses[j]
  {
  }

  function StatusName(s: Status): string {
    match s
    case Saved => "saved"
    case Applied => "applied"
    case Screening => "screening"
    case Test => "test"
    case Interview => "interview"
    case Offer => "offer"
    case Rejected => "rejected"
  }

  /** The text of a status column; `None` for anything outside the union. */
  function ParseStatus(name: string): (r: Option<Status>)
    ensures r.Some? ==> StatusName(r.value) == name
    ensures forall s :: StatusName(s) == name ==> r == Some(s)
  {
    match name
    case "saved" => Some(Saved)
    case "applied" => Some(Applied)
    case "screening" => Some(Screening)
    case "test" => Some(Test)
    case "interview" => Some(Interview)
    case "offer" => Some(Offer)
    case "rejected" => Some(Rejected)
    case _ => None
  }

  datatype Source = LinkedIn | HH | Indeed | Telegram | Direct | Other

  function SourceName(s: Source): string {
    match s
    case LinkedIn => "linkedin"
    case HH => "hh"
    case Indeed => "indeed"
    case Telegram => "telegram"
    case Direct => "direct"
    case Other => "other"
  }

  /** Membership in the six allowed vacancy sources. */
  function ParseSource(name: string): (r: Option<Source>)
    ensures r.Some? ==> SourceName(r.value) == name
    ensures forall s :: SourceName(s) == name ==> r == Some(s)
  {
    match name
    case "linkedin" => Some(LinkedIn)
    case "hh" => Some(HH)
    case "indeed" => Some(Indeed)
    case "telegram" => Some(Telegram)
    case "direct" => Some(Direct)
    case "other" => Some(Other)
    case _ => None
  }

  datatype Priority = High | Medium | Low

  function PriorityName(p: Priority): string {
    match p
    case High => "high"
    case Medium => "medium"
    case Low => "low"
  }

  function ParsePriority(name: string): (r: Option<Priority>)
    ensures r.Some? ==> PriorityName(r.value) == name
    ensures forall p :: PriorityName(p) == name ==> r == Some(p)
  {
    match name
    case "high" => Some(High)
    case "medium" => Some(Medium)
    case "low" => Some(Low)
    case _ => None
  }

  /** Offer and rejected close the pipeline: no follow-up is asked for them. */
  predicate IsTerminal(s: Status) {
    s == Offer || s == Rejected
  }
}
