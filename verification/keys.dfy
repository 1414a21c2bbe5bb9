/**
  Keyboard symbols as the GTK key controller delivers them: a GDK key value.
  GDK key values follow the X11 keysym table, in which every graphic Latin-1
  character is its own code point and the named keys live at 0xff00 and above.
 */
module Keys {

  datatype Key = Key(keyval: nat)

  /** `Key::Escape` */
  const Escape: Key := Key(0xff1b)
  /** `Key::question`, the key value of '?' */
  const Question: Key := Key(0x003f)

  /** `Key::a`, `Key::s`, `Key::d`, `Key::f`, `Key::h`, `Key::j`, `Key::k`, `Key::l` */
  const KeyA: Key := Key(0x0061)
  const KeyS: Key := Key(0x0073)
  const KeyD: Key := Key(0x0064)
  const KeyF: Key := Key(0x0066)
  const KeyH: Key := Key(0x0068)
  const KeyJ: Key := Key(0x006a)
  const KeyK: Key := Key(0x006b)
  const KeyL: Key := Key(0x006c)

  /** The graphic Latin-1 characters: printable ASCII and U+00A0..U+00FF. */
  predicate IsLatin1Graphic(c: char) {
    (' ' <= c <= '~') || (' ' <= c <= 'ÿ')
  }

  /** The key whose symbol is the character `c`. */
  function OfChar(c: char): (k: Key)
    requires IsLatin1Graphic(c)
    ensures k != Escape
    ensures k == Question <==> c == '?'
    ensures k.keyval < 0x100
  {
    Key(c as nat)
  }

  /** Distinct characters are distinct keys, so a character can be read back from its key. */
  lemma OfCharInjective(c: char, d: char)
    requires IsLatin1Graphic(c) && IsLatin1Graphic(d)
    ensures OfChar(c) == OfChar(d) <==> c == d
  {
  }
}
