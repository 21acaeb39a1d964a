/** The status badge shown next to the print and assembly progress bars of
    the training centre and the unified app. */
module ProgressBadge {

  datatype BadgeVariant = Default | Outline

  datatype Badge = Badge(variant: BadgeVariant, text: string)

  const CompleteText: string := "Complete"
  const InProgressText: string := "In Progress"

  /** `progress === 100 ? "Complete" : "In Progress"`, with the filled
      variant exactly for a complete bar. */
  function BadgeFor(progress: int): (b: Badge)
    ensures b.text == CompleteText <==> progress == 100
    ensures b.text == InProgressText <==> progress != 100
    ensures b.variant == Default <==> b.text == CompleteText
  {
    if progress == 100 then Badge(Default, CompleteText) else Badge(Outline, InProgressText)
  }
}
