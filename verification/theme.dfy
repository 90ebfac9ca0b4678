/** Symbolic colour tags and icon glyphs. The hex values of the palette are
    presentation only; what matters to the cards is which tag is chosen. */
module Theme {

  /** The three state colours of the palette (success, warning, error). */
  datatype Color = Success | Warning | Error

  /** The icon glyphs the status badges draw. */
  datatype Glyph = Check | CheckCircle | AlertCircle | Clock

  /** An icon element as the cards create it: a glyph, a pixel size and a colour. */
  datatype Icon = Icon(glyph: Glyph, size: nat, color: Color)

  /** A status badge: an icon, a coloured text, and a background that is a
      translucent tint of `tint` (the colour with a `20` alpha suffix). */
  datatype Badge = Badge(icon: Icon, text: string, textColor: Color, tint: Color)

  /** Size of every badge icon. */
  const BadgeIconSize: nat := 16

  /** The badge a card draws for a status: the status icon, the status text in
      the icon's colour, on a tint of that same colour. */
  function StatusBadge(icon: Icon, text: string): (b: Badge)
    ensures Consistent(b)
    ensures b.icon == icon && b.text == text && b.textColor == icon.color
  {
    Badge(icon, text, icon.color, icon.color)
  }

  /** A badge is consistent when its icon, text and background agree on one colour. */
  predicate Consistent(b: Badge) {
    b.icon.color == b.textColor && b.tint == b.textColor
  }
}
