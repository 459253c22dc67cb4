/**
 * The two lookups an alert block goes through: the colour class of the
 * alert box and the icon-and-word label shown in bold at its start. Both
 * switch on the block's `type` string and have a fallback for any other
 * string.
 *
 * The icon glyphs are stored in the renderer as mis-decoded text (UTF-8
 * emoji bytes read as Mac Roman); they are kept here code point for code
 * point, since that is what reaches the page.
 */
module Alerts {
  import opened Blocks

  /** The four `type` strings both lookups have a case for. */
  const AlertTags: set<string> := {"info", "warning", "tips", "note"}

  /** `#getTypeAlertClass`. */
  function AlertClass(t: string): (r: string)
    ensures r == "light" <==> t !in AlertTags
    ensures r in {"info", "danger", "success", "secondary", "light"}
  {
    match t
    case "info" => "info"
    case "warning" => "danger"
    case "tips" => "success"
    case "note" => "secondary"
    case _ => "light"
  }

  /** The word each label ends with. */
  function LabelWord(a: AlertType): string {
    match a
    case Info => "Info"
    case Warning => "Warning"
    case Tips => "Tips"
    case Note => "Catatan"
  }

  /** The mis-decoded emoji each label starts with. */
  function Glyph(a: AlertType): string {
    match a
    case Info => "\U{F8FF}\U{FC}\U{ED}\U{B0}"
    case Warning => "\U{201A}\U{F6}\U{2020}\U{D4}\U{220F}\U{E8}"
    case Tips => "\U{201A}\U{FA}\U{D6}"
    case Note => "\U{F8FF}\U{FC}\U{EC}\U{F9}"
  }

  /** `#getCardIcon`. */
  function CardIcon(t: string): (r: string)
    ensures r == "" <==> t !in AlertTags
  {
    match t
    case "info" => "\U{F8FF}\U{FC}\U{ED}\U{B0} Info"
    case "warning" => "\U{201A}\U{F6}\U{2020}\U{D4}\U{220F}\U{E8} Warning"
    case "tips" => "\U{201A}\U{FA}\U{D6} Tips"
    case "note" => "\U{F8FF}\U{FC}\U{EC}\U{F9} Catatan"
    case _ => ""
  }

  /**
   * Every alert block reaches a real case of both lookups: its class is
   * never the fallback, warnings are shown as "danger", and its label is
   * its glyph, a space and its word.
   */
  lemma AlertLookups(a: AlertType)
    ensures AlertTag(a) in AlertTags
    ensures AlertClass(AlertTag(a)) != "light"
    ensures AlertClass(AlertTag(a)) == match a
                                       case Info => "info"
                                       case Warning => "danger"
                                       case Tips => "success"
                                       case Note => "secondary"
    ensures CardIcon(AlertTag(a)) == Glyph(a) + " " + LabelWord(a)
  {
  }

  /** Distinct alert kinds get distinct classes and distinct labels. */
  lemma AlertLookupsInjective(a: AlertType, b: AlertType)
    ensures AlertClass(AlertTag(a)) == AlertClass(AlertTag(b)) ==> a == b
    ensures CardIcon(AlertTag(a)) == CardIcon(AlertTag(b)) ==> a == b
  {
    AlertLookups(a);
    AlertLookups(b);
  }
}
