/** The lookup key under which a retailer's scraper module is found:
    `nombre.toLowerCase().replace(/[^a-z0-9]/g, '')`. */
module ExtractorKey {

  predicate IsKeyChar(c: char) {
    'a' <= c <= 'z' || '0' <= c <= '9'
  }

  predicate AllKeyChars(s: string) {
    forall i :: 0 <= i < |s| ==> IsKeyChar(s[i])
  }

  /** `toLowerCase` of one character, exact on every character that can survive the filter:
      'A'..'Z' map to 'a'..'z', KELVIN SIGN maps to "k", and LATIN CAPITAL LETTER I WITH DOT ABOVE
      maps to "i" followed by COMBINING DOT ABOVE. Every other character is kept as it is; its true
      lower-case form is never an ASCII letter or digit, so the filter removes it either way. */
  function LowerChar(c: char): (r: string)
    ensures IsKeyChar(c) ==> r == [c]
  {
    if 'A' <= c <= 'Z' then [(c as int + 32) as char]
    else if c == '\U{212A}' then "k"
    else if c == '\U{130}' then "i\U{307}"
    else [c]
  }

  /** `toLowerCase` of a whole string, character by character. */
  function Lower(s: string): (r: string)
    ensures |r| >= |s|
    ensures AllKeyChars(s) ==> r == s
  {
    if s == [] then [] else LowerChar(s[0]) + Lower(s[1..])
  }

  /** `replace(/[^a-z0-9]/g, '')`: drops every character outside [a-z0-9], keeping the order of the rest. */
  function StripNonKey(s: string): (r: string)
    ensures AllKeyChars(r)
    ensures AllKeyChars(s) ==> r == s
    ensures |r| <= |s|
  {
    if s == [] then []
    else if IsKeyChar(s[0]) then [s[0]] + StripNonKey(s[1..])
    else StripNonKey(s[1..])
  }

  /** The filter keeps every [a-z0-9] character of its input, as many times as it occurs there. */
  lemma {:induction false} StripKeepsKeyChars(s: string, c: char)
    requires IsKeyChar(c)
    ensures multiset(StripNonKey(s))[c] == multiset(s)[c]
  {
    if s != [] {
      StripKeepsKeyChars(s[1..], c);
      assert s == [s[0]] + s[1..];
    }
  }

  /** The key of a one-character name: what lower-casing that character and then filtering leaves
      (`KeyOfCharIsLowerThenStrip`). */
  function KeyOfChar(c: char): string {
    if 'A' <= c <= 'Z' then [(c as int + 32) as char]
    else if IsKeyChar(c) then [c]
    else if c == '\U{212A}' then "k"
    else if c == '\U{130}' then "i"
    else []
  }

  /** The lookup key, computed character by character; `KeyIsLowerThenStrip` shows that it is
      `toLowerCase` followed by the filter. */
  function Key(nombre: string): (k: string)
    ensures |k| <= |nombre|
  {
    if nombre == [] then [] else KeyOfChar(nombre[0]) + Key(nombre[1..])
  }

  lemma KeyOfCharIsLowerThenStrip(c: char)
    ensures KeyOfChar(c) == StripNonKey(LowerChar(c))
  {
  }

  /** A key holds only lower-case ASCII letters and digits, whatever the name. */
  lemma {:induction false} KeyIsKeyString(s: string)
    ensures AllKeyChars(Key(s))
  {
    if s != [] {
      KeyIsKeyString(s[1..]);
      var k := Key(s);
      forall i | 0 <= i < |k| ensures IsKeyChar(k[i]) {
        if i >= |KeyOfChar(s[0])| {
          assert k[i] == Key(s[1..])[i - |KeyOfChar(s[0])|];
        }
      }
    }
  }

  /** A name is its own key exactly when it consists of lower-case ASCII letters and digits only. */
  lemma {:induction false} KeyFixedPoint(s: string)
    ensures Key(s) == s <==> AllKeyChars(s)
  {
    KeyIsKeyString(s);
    if s != [] && AllKeyChars(s) {
      KeyFixedPoint(s[1..]);
      assert AllKeyChars(s[1..]) by {
        forall i | 0 <= i < |s[1..]| ensures IsKeyChar(s[1..][i]) {
          assert s[1..][i] == s[i + 1];
        }
      }
    }
  }

  /** Normalising a key again leaves it unchanged. */
  lemma KeyIdempotent(s: string)
    ensures Key(Key(s)) == Key(s)
  {
    KeyIsKeyString(s);
    KeyFixedPoint(Key(s));
  }

  lemma {:induction false} LowerConcat(a: string, b: string)
    ensures Lower(a + b) == Lower(a) + Lower(b)
  {
    if a != [] {
      assert (a + b)[1..] == a[1..] + b;
      LowerConcat(a[1..], b);
    } else {
      assert a + b == b;
    }
  }

  lemma {:induction false} LowerIdempotent(s: string)
    ensures Lower(Lower(s)) == Lower(s)
  {
    if s != [] {
      LowerIdempotent(s[1..]);
      LowerConcat(LowerChar(s[0]), Lower(s[1..]));
      assert Lower(LowerChar(s[0])) == LowerChar(s[0]);
    }
  }

  lemma {:induction false} StripConcat(a: string, b: string)
    ensures StripNonKey(a + b) == StripNonKey(a) + StripNonKey(b)
  {
    if a != [] {
      assert (a + b)[1..] == a[1..] + b;
      StripConcat(a[1..], b);
    } else {
      assert a + b == b;
    }
  }

  /** The key is `nombre.toLowerCase().replace(/[^a-z0-9]/g, '')`: lower-case the whole name, then
      drop every character outside [a-z0-9]. */
  lemma {:induction false} KeyIsLowerThenStrip(s: string)
    ensures Key(s) == StripNonKey(Lower(s))
  {
    if s != [] {
      KeyIsLowerThenStrip(s[1..]);
      KeyOfCharIsLowerThenStrip(s[0]);
      StripConcat(LowerChar(s[0]), Lower(s[1..]));
    }
  }

  /** The key does not depend on letter case: a name and its lower-case form share one key. */
  lemma KeyIgnoresCase(s: string)
    ensures Key(Lower(s)) == Key(s)
  {
    KeyIsLowerThenStrip(s);
    KeyIsLowerThenStrip(Lower(s));
    LowerIdempotent(s);
  }

  /** The key of a concatenation is the concatenation of the keys: the filter works character by character. */
  lemma {:induction false} KeyConcat(a: string, b: string)
    ensures Key(a + b) == Key(a) + Key(b)
  {
    if a != [] {
      assert (a + b)[1..] == a[1..] + b;
      KeyConcat(a[1..], b);
    } else {
      assert a + b == b;
    }
  }
}
