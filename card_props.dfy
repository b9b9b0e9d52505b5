/** The product card's description line (`CardProps`). */
module CardProps {
  import opened Common

  const Placeholder: string := "Không có mô tả"
  const MaxShown: int := 80
  const KeptOnTruncation: int := 77

  /** What the card shows for an optional description: the placeholder when
      there is none or it is empty, the text itself up to 80 characters, and
      otherwise its first 77 characters followed by "...". */
  function DisplayDescription(description: Option<string>): (shown: string)
    ensures description.None? || description.value == [] ==> shown == Placeholder
    ensures description.Some? && 0 < |description.value| <= MaxShown ==> shown == description.value
    ensures description.Some? && |description.value| > MaxShown ==>
      |shown| == MaxShown && shown[..KeptOnTruncation] == description.value[..KeptOnTruncation]
      && shown[KeptOnTruncation..] == "..."
  {
    if description.Some? && |description.value| > 0 then
      var d := description.value;
      if |d| > MaxShown then d[..KeptOnTruncation] + "..." else d
    else Placeholder
  }

  /** A non-empty description is never shown longer than 80 characters, and
      what is shown is either the whole text or a proper prefix of it marked
      by "..."; the two cases are told apart by the length alone. */
  lemma ShownTextIsBoundedPrefix(d: string)
    requires d != []
    ensures var shown := DisplayDescription(Some(d));
      && |shown| <= MaxShown
      && (shown == d <==> |d| <= MaxShown)
      && (shown != d ==> exists k :: 0 <= k < |d| && shown == d[..k] + "...")
  {
    var shown := DisplayDescription(Some(d));
    if |d| > MaxShown {
      assert shown == d[..KeptOnTruncation] + "...";
      assert |shown| < |d|;
    }
  }

  /** Displaying the displayed text again gives the same text. */
  lemma DisplayIdempotent(d: string)
    requires d != []
    ensures DisplayDescription(Some(DisplayDescription(Some(d)))) == DisplayDescription(Some(d))
  {
    ShownTextIsBoundedPrefix(d);
  }
}
