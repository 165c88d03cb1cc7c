/** The one text rule of the forecast kept by the model: the weather
    description is shown with its first character in upper case and the rest
    unchanged (`description.charAt(0).toUpperCase() + description.slice(1)`). */
module WeatherText {

  /** Lower-case letters the provider's Ukrainian and English descriptions
      use: ASCII `a`-`z`, Cyrillic U+0430-U+045F and `ґ` (U+0491). */
  predicate IsLower(c: char) {
    || ('a' <= c <= 'z')
    || (0x430 <= c as int <= 0x45F)
    || c as int == 0x491
  }

  /** `toUpperCase` on one character of those ranges: a lower-case letter
      becomes the capital of that same letter, which lower-cases back to it;
      every other character is left as it is. */
  function UpperCase(c: char): (u: char)
    ensures !IsLower(u)
    ensures !IsLower(c) ==> u == c
    ensures IsLower(c) ==> u != c && LowerCase(u) == c
  {
    if 'a' <= c <= 'z' then (c as int - 32) as char
    else if 0x430 <= c as int <= 0x44F then (c as int - 0x20) as char
    else if 0x450 <= c as int <= 0x45F then (c as int - 0x50) as char
    else if c as int == 0x491 then 0x490 as char
    else c
  }

  /** `toLowerCase` on the images of `UpperCase`: ASCII `A`-`Z`, Cyrillic
      U+0400-U+042F and `Ґ` (U+0490); every other character is left as it is. */
  function LowerCase(c: char): char {
    if 'A' <= c <= 'Z' then (c as int + 32) as char
    else if 0x410 <= c as int <= 0x42F then (c as int + 0x20) as char
    else if 0x400 <= c as int <= 0x40F then (c as int + 0x50) as char
    else if c as int == 0x490 then 0x491 as char
    else c
  }

  function Capitalise(s: string): (r: string)
    ensures |r| == |s|
    ensures forall i :: 1 <= i < |s| ==> r[i] == s[i]
    ensures s != [] ==> r[0] == UpperCase(s[0]) && !IsLower(r[0])
  {
    if s == [] then [] else [UpperCase(s[0])] + s[1..]
  }

  /** Capitalising twice is capitalising once. */
  lemma CapitaliseIdempotent(s: string)
    ensures Capitalise(Capitalise(s)) == Capitalise(s)
  {
  }

  /** A description that already starts with a capital (or with anything
      that is not a lower-case letter) is shown as it is. */
  lemma CapitaliseKeeps(s: string)
    requires s == [] || !IsLower(s[0])
    ensures Capitalise(s) == s
  {
  }

  lemma CapitaliseExample()
    ensures Capitalise("clear sky") == "Clear sky"
  {
  }
}
