/** The name of a systemd service turned into the D-Bus object path of its
    unit (src/blocks/service_status.rs:115-134): "<name>.service" escaped
    byte by byte, placed under /org/freedesktop/systemd1/unit/. */
module UnitPath {
  import opened Wrappers
  import ObjectPath

  /** A byte (Rust's `u8`). */
  type Byte = b: int | 0 <= b < 256

  /** A value of one hexadecimal digit. */
  type Nibble = n: int | 0 <= n < 16

  /** `str::is_ascii`: every character is below U+0080. */
  predicate IsAscii(s: string) {
    forall i :: 0 <= i < |s| ==> s[i] as int < 128
  }

  /** `u8::is_ascii_alphanumeric`: '0'..'9', 'A'..'Z' or 'a'..'z'. */
  predicate IsAsciiAlphanumeric(b: Byte) {
    (48 <= b <= 57) || (65 <= b <= 90) || (97 <= b <= 122)
  }

  /** The bytes of an ASCII string (`str::bytes`); for ASCII text each
      character is one byte. */
  function Bytes(s: string): seq<Byte>
    requires IsAscii(s)
  {
    seq(|s|, i requires 0 <= i < |s| => s[i] as int)
  }

  /** The text whose characters are the given bytes. */
  function Chars(bs: seq<Byte>): string {
    seq(|bs|, i requires 0 <= i < |bs| => bs[i] as char)
  }

  /** The lower-case hexadecimal digit for `n`. */
  function HexDigit(n: Nibble): char {
    "0123456789abcdef"[n]
  }

  /** The value of a lower-case hexadecimal digit; None for anything else. */
  function HexValue(c: char): Option<Nibble> {
    if '0' <= c <= '9' then Some(c as int - '0' as int)
    else if 'a' <= c <= 'f' then Some(c as int - 'a' as int + 10)
    else None
  }

  /** The escape of one byte: an alphanumeric byte stands for itself, any
      other byte, '_' included, becomes `format!("_{b:02x}")`: '_' and two
      lower-case hex digits that spell the byte, high nibble first. */
  function EscapeByte(b: Byte): (r: string)
    ensures IsAsciiAlphanumeric(b) ==> r == [b as char]
    ensures !IsAsciiAlphanumeric(b) ==>
      && |r| == 3
      && r[0] == '_'
      && HexValue(r[1]) == Some(b / 16)
      && HexValue(r[2]) == Some(b % 16)
  {
    HexDigitValue(b / 16);
    HexDigitValue(b % 16);
    if IsAsciiAlphanumeric(b) then [b as char]
    else ['_', HexDigit(b / 16), HexDigit(b % 16)]
  }

  /** How many bytes of `bs` are not alphanumeric, i.e. are escaped. */
  function EscapedCount(bs: seq<Byte>): nat {
    if bs == [] then 0
    else (if IsAsciiAlphanumeric(bs[0]) then 0 else 1) + EscapedCount(bs[1..])
  }

  /** The `bytes().map(...).collect::<String>()` pipeline: the escapes of the
      bytes, in order. Only path-element characters come out, and each
      escaped byte adds two characters. */
  function Escape(bs: seq<Byte>): (r: string)
    ensures forall i :: 0 <= i < |r| ==> ObjectPath.IsElementChar(r[i])
    ensures |r| == |bs| + 2 * EscapedCount(bs)
  {
    if bs == [] then [] else EscapeByte(bs[0]) + Escape(bs[1..])
  }

  /** The suffix appended to the service name before escaping. */
  const UnitSuffix := ".service"

  /** The object of systemd's D-Bus API under which its units live. */
  const UnitDirectory := "/org/freedesktop/systemd1/unit"

  /** The text in front of the encoded name in a unit's object path: the
      unit directory and a '/' (`UnitDirectoryValid` proves it), written out
      as the literal of line 134. */
  const UnitPathPrefix := "/org/freedesktop/systemd1/unit/"

  lemma AsciiAppend(a: string, b: string)
    requires IsAscii(a) && IsAscii(b)
    ensures IsAscii(a + b) && Bytes(a + b) == Bytes(a) + Bytes(b)
  {
  }

  /** Of the bytes of ".service" only the '.' is escaped. */
  lemma SuffixEscapedCount()
    ensures EscapedCount(Bytes(UnitSuffix)) == 1
  {
    var suffix := Bytes(UnitSuffix);
    assert suffix == [46, 115, 101, 114, 118, 105, 99, 101];
    assert EscapedCount(suffix[7..]) == 0;
    assert EscapedCount(suffix[6..]) == 0;
    assert EscapedCount(suffix[5..]) == 0;
    assert EscapedCount(suffix[4..]) == 0;
    assert EscapedCount(suffix[3..]) == 0;
    assert EscapedCount(suffix[2..]) == 0;
    assert EscapedCount(suffix[1..]) == 0;
  }

  /** The escaped unit name `encoded_service`; the source reaches this only
      for a name that passed the ASCII check. */
  function EncodeUnitName(service: string): string
    requires IsAscii(service)
  {
    AsciiAppend(service, UnitSuffix);
    Escape(Bytes(service + UnitSuffix))
  }

  /** The object path the unit proxy is built for. */
  function UnitObjectPath(service: string): string
    requires IsAscii(service)
  {
    UnitPathPrefix + EncodeUnitName(service)
  }

  /** The inverse of Escape: an element character other than '_' stands for
      its own byte, '_' followed by two lower-case hex digits for the byte
      they spell. Anything else is not an escaped name. */
  function Unescape(s: string): Option<seq<Byte>>
    decreases |s|
  {
    if s == [] then Some([])
    else if s[0] == '_' then
      if |s| < 3 then None
      else
        match (HexValue(s[1]), HexValue(s[2]), Unescape(s[3..]))
        case (Some(hi), Some(lo), Some(rest)) => Some([hi * 16 + lo] + rest)
        case _ => None
    else if s[0] as int < 256 && IsAsciiAlphanumeric(s[0] as int) then
      match Unescape(s[1..])
      case Some(rest) => Some([s[0] as int] + rest)
      case None => None
    else None
  }

  /** The service name an escaped unit name stands for: unescape, then strip
      the ".service" suffix. */
  function DecodeUnitName(encoded: string): Option<string> {
    match Unescape(encoded)
    case None => None
    case Some(bs) =>
      if |bs| >= |UnitSuffix| && Chars(bs[|bs| - |UnitSuffix|..]) == UnitSuffix
      then Some(Chars(bs[..|bs| - |UnitSuffix|]))
      else None
  }

  lemma HexDigitValue(n: Nibble)
    ensures HexValue(HexDigit(n)) == Some(n)
    ensures '0' <= HexDigit(n) <= '9' || 'a' <= HexDigit(n) <= 'f'
  {
  }

  /** Escaping works byte by byte: the escape of a concatenation is the
      concatenation of the escapes. */
  lemma {:induction false} EscapeAppend(a: seq<Byte>, b: seq<Byte>)
    ensures Escape(a + b) == Escape(a) + Escape(b)
  {
    if a == [] {
      assert a + b == b;
    } else {
      assert (a + b)[0] == a[0];
      assert (a + b)[1..] == a[1..] + b;
      EscapeAppend(a[1..], b);
    }
  }

  lemma {:induction false} EscapedCountAppend(a: seq<Byte>, b: seq<Byte>)
    ensures EscapedCount(a + b) == EscapedCount(a) + EscapedCount(b)
  {
    if a == [] {
      assert a + b == b;
    } else {
      assert (a + b)[0] == a[0];
      assert (a + b)[1..] == a[1..] + b;
      EscapedCountAppend(a[1..], b);
    }
  }

  /** Unescaping one byte's escape in front of `rest` yields that byte in
      front of what `rest` unescapes to. */
  lemma UnescapeCons(b: Byte, rest: string)
    ensures Unescape(EscapeByte(b) + rest) ==
      match Unescape(rest)
      case Some(t) => Some([b] + t)
      case None => None
  {
    var s := EscapeByte(b) + rest;
    if IsAsciiAlphanumeric(b) {
      assert s[0] == b as char && s[1..] == rest;
    } else {
      assert s[0] == '_' && s[1] == EscapeByte(b)[1] && s[2] == EscapeByte(b)[2];
      assert s[3..] == rest;
      assert (b / 16) * 16 + b % 16 == b;
    }
  }

  /** Round trip: unescaping recovers every byte sequence from its escape. */
  lemma {:induction false} UnescapeEscape(bs: seq<Byte>)
    ensures Unescape(Escape(bs)) == Some(bs)
  {
    if bs != [] {
      UnescapeEscape(bs[1..]);
      UnescapeCons(bs[0], Escape(bs[1..]));
      assert [bs[0]] + bs[1..] == bs;
    }
  }

  /** Escaping is injective: different byte sequences never share an escape. */
  lemma EscapeInjective(a: seq<Byte>, b: seq<Byte>)
    requires Escape(a) == Escape(b)
    ensures a == b
  {
    UnescapeEscape(a);
    UnescapeEscape(b);
  }

  /** Decoding an encoded unit name gives back the service name. */
  lemma DecodeEncodeUnitName(service: string)
    requires IsAscii(service)
    ensures DecodeUnitName(EncodeUnitName(service)) == Some(service)
  {
    AsciiAppend(service, UnitSuffix);
    var bs := Bytes(service + UnitSuffix);
    UnescapeEscape(bs);
    var n := |bs| - |UnitSuffix|;
    assert bs[n..] == Bytes(UnitSuffix);
    assert Chars(bs[n..]) == UnitSuffix;
    assert bs[..n] == Bytes(service);
    assert Chars(bs[..n]) == service;
  }

  /** Two service names with the same encoding are the same name, so two
      services never share an object path. */
  lemma EncodeUnitNameInjective(a: string, b: string)
    requires IsAscii(a) && IsAscii(b)
    requires EncodeUnitName(a) == EncodeUnitName(b)
    ensures a == b
  {
    DecodeEncodeUnitName(a);
    DecodeEncodeUnitName(b);
  }

  /** The encoded name is `|name| + 8 + 2 * (k + 1)` characters long, where
      k counts the non-alphanumeric bytes of the name; the `+ 1` is the '.'
      of ".service". */
  lemma EncodeUnitNameLength(service: string)
    requires IsAscii(service)
    ensures |EncodeUnitName(service)| ==
      |service| + |UnitSuffix| + 2 * (EscapedCount(Bytes(service)) + 1)
  {
    AsciiAppend(service, UnitSuffix);
    EscapedCountAppend(Bytes(service), Bytes(UnitSuffix));
    SuffixEscapedCount();
  }

  /** The encoded name is a valid element of a D-Bus object path. */
  lemma EncodeUnitNameIsElement(service: string)
    requires IsAscii(service)
    ensures ObjectPath.IsElement(EncodeUnitName(service))
  {
    EncodeUnitNameLength(service);
  }

  /** The directory of unit objects, "/org/freedesktop/systemd1/unit", is a
      valid object path. */
  lemma UnitDirectoryValid()
    ensures UnitPathPrefix == UnitDirectory + "/"
    ensures ObjectPath.IsValid(UnitDirectory) && UnitDirectory != ObjectPath.Root
  {
  }

  /** The unit's object path is the encoded name as a child of the unit
      directory, and it is a valid D-Bus object path, so building the proxy
      for it never fails on the path. */
  lemma UnitObjectPathValid(service: string)
    requires IsAscii(service)
    ensures UnitObjectPath(service) == ObjectPath.Child(UnitDirectory, EncodeUnitName(service))
    ensures ObjectPath.IsValid(UnitObjectPath(service))
  {
    UnitDirectoryValid();
    EncodeUnitNameIsElement(service);
    ObjectPath.ChildValid(UnitDirectory, EncodeUnitName(service));
  }

  /** An ASCII text of alphanumerics only escapes to itself. */
  lemma {:induction false} EscapeAlphanumeric(s: string)
    requires IsAscii(s)
    requires forall i :: 0 <= i < |s| ==> IsAsciiAlphanumeric(s[i] as int)
    ensures Escape(Bytes(s)) == s
  {
    if s != [] {
      assert Bytes(s)[1..] == Bytes(s[1..]);
      EscapeAlphanumeric(s[1..]);
    }
  }

  /** The escape of `name` followed by one escaped byte and an
      alphanumeric `tail`. */
  lemma EscapeAround(name: seq<Byte>, b: Byte, tail: string)
    requires IsAscii(tail)
    requires forall i :: 0 <= i < |tail| ==> IsAsciiAlphanumeric(tail[i] as int)
    ensures Escape(name + ([b] + Bytes(tail))) == Escape(name) + (EscapeByte(b) + tail)
  {
    EscapeAppend(name, [b] + Bytes(tail));
    EscapeAppend([b], Bytes(tail));
    EscapeAlphanumeric(tail);
  }

  /** A name made of alphanumerics only is kept as it is; only the '.' of
      the suffix is escaped. */
  lemma EncodeAlphanumericName(service: string)
    requires IsAscii(service)
    requires forall i :: 0 <= i < |service| ==> IsAsciiAlphanumeric(service[i] as int)
    ensures EncodeUnitName(service) == service + "_2eservice"
  {
    var name := Bytes(service);
    var tail := [46] + Bytes("service");
    assert Bytes(service + UnitSuffix) == name + tail;
    calc {
      EncodeUnitName(service);
      Escape(name + tail);
      { EscapeAround(name, 46, "service"); }
      Escape(name) + (EscapeByte(46) + "service");
      { EscapeAlphanumeric(service); }
      service + (EscapeByte(46) + "service");
      { assert EscapeByte(46) == "_2e"; }
      service + ("_2e" + "service");
      service + "_2eservice";
    }
  }

  /** `cups` is served by the element "cups_2eservice". */
  lemma EncodeCups()
    ensures EncodeUnitName("cups") == "cups_2eservice"
  {
    EncodeAlphanumericName("cups");
  }

  /** A name of two alphanumeric parts joined by '-' keeps both parts; the
      '-' becomes "_2d" and the '.' of the suffix "_2e". */
  lemma EncodeHyphenatedName(first: string, second: string)
    requires IsAscii(first) && IsAscii(second)
    requires forall i :: 0 <= i < |first| ==> IsAsciiAlphanumeric(first[i] as int)
    requires forall i :: 0 <= i < |second| ==> IsAsciiAlphanumeric(second[i] as int)
    ensures IsAscii(first + "-" + second)
    ensures EncodeUnitName(first + "-" + second) == first + "_2d" + second + "_2eservice"
  {
    var head := Bytes(first);
    var middle := [45] + Bytes(second);
    var tail := [46] + Bytes("service");
    assert Bytes(first + "-" + second + UnitSuffix) == (head + middle) + tail;
    calc {
      EncodeUnitName(first + "-" + second);
      Escape((head + middle) + tail);
      { EscapeAround(head + middle, 46, "service"); }
      Escape(head + middle) + (EscapeByte(46) + "service");
      { EscapeAround(head, 45, second); }
      (Escape(head) + (EscapeByte(45) + second)) + (EscapeByte(46) + "service");
      { EscapeAlphanumeric(first); }
      (first + (EscapeByte(45) + second)) + (EscapeByte(46) + "service");
      { assert EscapeByte(45) == "_2d" && EscapeByte(46) == "_2e"; }
      (first + ("_2d" + second)) + ("_2e" + "service");
      first + "_2d" + second + "_2eservice";
    }
  }

  /** `a-b` becomes "a_2db_2eservice": '-' is 0x2d and '.' is 0x2e. */
  lemma EncodeHyphenated()
    ensures EncodeUnitName("a-b") == "a_2db_2eservice"
  {
    EncodeHyphenatedName("a", "b");
    assert "a" + "-" + "b" == "a-b";
  }
}
