/** Characters as Python's strings and regular expressions class them. */
module Characters {
  /** `str.isspace` of one character, and `\s`. */
  predicate Whitespace(c: char) {
    var n := c as int;
    9 <= n <= 13 || 28 <= n <= 32 || n == 133 || n == 160 || n == 5760 || 8192 <= n <= 8202
    || n == 8232 || n == 8233 || n == 8239 || n == 8287 || n == 12288
  }

  /** The letter that an ignored case stands for, as far as it is a letter from a to z: next to the capitals
      these are the dotted capital I, the dotless i, the long s and the Kelvin sign. */
  function Fold(c: char): char {
    if 'A' <= c <= 'Z' then (c as int + 32) as char
    else if c as int == 304 || c as int == 305 then 'i'
    else if c as int == 383 then 's'
    else if c as int == 8490 then 'k'
    else c
  }
}
