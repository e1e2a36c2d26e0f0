/** The two computed columns of the admin pages (agent/admin.py). */
module Admin {
  import opened Wrappers

  const ShortLength := 60
  const Ellipsis := "..."

  /** `TranscriptAdmin.short_text`: a transcript cut to sixty characters for the list view. */
  function ShortText(text: string): (shown: string)
    ensures |text| <= ShortLength ==> shown == text
    ensures |text| > ShortLength ==> shown == text[..ShortLength] + Ellipsis && |shown| == ShortLength + |Ellipsis|
    ensures |shown| <= ShortLength + |Ellipsis|
    ensures var keep := if |text| < ShortLength then |text| else ShortLength;
            |shown| >= keep && shown[..keep] == text[..keep]
  {
    if |text| > ShortLength then text[..ShortLength] + Ellipsis else text
  }

  /** What the duration column shows. */
  datatype Shown = Ongoing | Elapsed(delta: int)

  /** `CallAdmin.duration`, with timestamps as integers. */
  function Duration(startTime: int, endTime: Option<int>): (d: Shown)
    ensures d.Ongoing? == endTime.None?
    ensures d.Elapsed? ==> startTime + d.delta == endTime.value
  {
    match endTime
    case Some(end) => Elapsed(end - startTime)
    case None => Ongoing
  }
}
