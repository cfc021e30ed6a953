/**
 * The table ordering URL and the QR helpers around it (`src/lib/qr.ts`):
 * the choice of base URL, the URL a table's QR code points at, the
 * placeholder picture used when the QR library fails, and the environment
 * checks of the PNG conversion. The QR library and the canvas are foreign
 * calls; they appear as parameters that either produce a value or fail.
 *
 * The table id is put into the URL with ECMAScript `encodeURIComponent`
 * (section 19.2.6.4 of ECMA-262, 2022 edition): every code point outside the
 * unreserved set is written as the percent-escaped bytes of its UTF-8 form.
 * `DecodeURIComponent` (section 19.2.6.2) is its inverse, which makes distinct
 * tables' URLs distinct.
 */
module Qr {
  import opened Wrappers
  import Text

  // ---------------------------------------------------------------------
  // encodeURIComponent and decodeURIComponent
  // ---------------------------------------------------------------------

  /** The characters `encodeURIComponent` leaves as they are. */
  predicate Unreserved(c: char) {
    ('A' <= c <= 'Z') || ('a' <= c <= 'z') || ('0' <= c <= '9') ||
    c == '-' || c == '_' || c == '.' || c == '!' || c == '~' || c == '*' || c == '\'' || c == '(' || c == ')'
  }

  predicate IsByte(b: int) {
    0 <= b < 256
  }

  /** The UTF-8 bytes of one code point. */
  function Utf8(c: char): (r: seq<int>)
    ensures 1 <= |r| <= 4 && forall i :: 0 <= i < |r| ==> IsByte(r[i])
  {
    var n := c as int;
    var n1 := n / 64;
    var n2 := n1 / 64;
    if n < 0x80 then [n]
    else if n < 0x800 then [0xC0 + n1, 0x80 + n % 64]
    else if n < 0x10000 then [0xE0 + n2, 0x80 + n1 % 64, 0x80 + n % 64]
    else [0xF0 + n2 / 64, 0x80 + n2 % 64, 0x80 + n1 % 64, 0x80 + n % 64]
  }

  /** An upper-case hexadecimal digit. */
  function HexDigit(d: int): (c: char)
    requires 0 <= d < 16
    ensures HexValue(c) == Some(d)
  {
    if d < 10 then ('0' as int + d) as char else ('A' as int + d - 10) as char
  }

  /** `%XY` with upper-case hexadecimal digits. */
  function Escape(b: int): string
    requires IsByte(b)
  {
    ['%', HexDigit(b / 16), HexDigit(b % 16)]
  }

  function EscapeAll(bs: seq<int>): (r: string)
    requires forall i :: 0 <= i < |bs| ==> IsByte(bs[i])
    ensures |r| == 3 * |bs|
  {
    if bs == [] then [] else Escape(bs[0]) + EscapeAll(bs[1..])
  }

  function EncodeChar(c: char): string {
    if Unreserved(c) then [c] else EscapeAll(Utf8(c))
  }

  /** `encodeURIComponent(s)`. */
  function EncodeURIComponent(s: string): string {
    if s == [] then [] else EncodeChar(s[0]) + EncodeURIComponent(s[1..])
  }

  function HexValue(c: char): (r: Option<int>)
    ensures r.Some? ==> 0 <= r.value < 16
  {
    if '0' <= c <= '9' then Some(c as int - '0' as int)
    else if 'A' <= c <= 'F' then Some(c as int - 'A' as int + 10)
    else if 'a' <= c <= 'f' then Some(c as int - 'a' as int + 10)
    else None
  }

  /** The byte that the escape `%XY` at the start of `s` spells, if there is one. */
  function EscapedByte(s: string): (r: Option<int>)
    ensures r.Some? ==> |s| >= 3 && IsByte(r.value)
  {
    if |s| < 3 || s[0] != '%' then None
    else match (HexValue(s[1]), HexValue(s[2]))
      case (Some(hi), Some(lo)) => Some(hi * 16 + lo)
      case _ => None
  }

  /** The bytes of `n` consecutive escapes at the start of `s`. */
  function EscapedBytes(s: string, n: nat): (r: Option<seq<int>>)
    ensures r.Some? ==> |r.value| == n && |s| >= 3 * n && forall i :: 0 <= i < n ==> IsByte(r.value[i])
    decreases n
  {
    if n == 0 then Some([])
    else match EscapedByte(s)
      case None => None
      case Some(b) =>
        match EscapedBytes(s[3..], n - 1)
        case None => None
        case Some(bs) => Some([b] + bs)
  }

  /** How many bytes a UTF-8 sequence starting with `lead` has; 0 when `lead` cannot start one. */
  function SequenceLength(lead: int): nat {
    if lead < 0x80 then 1
    else if 0xC0 <= lead < 0xE0 then 2
    else if 0xE0 <= lead < 0xF0 then 3
    else if 0xF0 <= lead < 0xF8 then 4
    else 0
  }

  function CodePoint(bs: seq<int>): int
    requires 1 <= |bs| <= 4
  {
    if |bs| == 1 then bs[0]
    else if |bs| == 2 then (bs[0] - 0xC0) * 64 + (bs[1] - 0x80)
    else if |bs| == 3 then (bs[0] - 0xE0) * 4096 + (bs[1] - 0x80) * 64 + (bs[2] - 0x80)
    else (bs[0] - 0xF0) * 262144 + (bs[1] - 0x80) * 4096 + (bs[2] - 0x80) * 64 + (bs[3] - 0x80)
  }

  /** `bs` is the shortest UTF-8 form of a code point that is not a surrogate. */
  predicate ValidUtf8(bs: seq<int>) {
    1 <= |bs| <= 4 && (forall i :: 0 <= i < |bs| ==> IsByte(bs[i])) &&
    SequenceLength(bs[0]) == |bs| &&
    (forall i :: 1 <= i < |bs| ==> 0x80 <= bs[i] < 0xC0) &&
    var cp := CodePoint(bs);
    (if |bs| == 2 then 0x80 <= cp else if |bs| == 3 then 0x800 <= cp else if |bs| == 4 then 0x10000 <= cp else true) &&
    cp < 0x110000 && !(0xD800 <= cp < 0xE000)
  }

  /** `decodeURIComponent(s)`; `None` where it throws a `URIError`. */
  function DecodeURIComponent(s: string): Option<string>
    decreases |s|
  {
    if s == [] then Some([])
    else if s[0] != '%' then
      match DecodeURIComponent(s[1..])
      case None => None
      case Some(t) => Some([s[0]] + t)
    else
      match EscapedByte(s)
      case None => None
      case Some(lead) =>
        var n := SequenceLength(lead);
        if n == 0 then None
        else
          match EscapedBytes(s, n)
          case None => None
          case Some(bs) =>
            if !ValidUtf8(bs) then None
            else
              assert 0 <= CodePoint(bs);
              match DecodeURIComponent(s[3 * n..])
              case None => None
              case Some(t) => Some([CodePoint(bs) as char] + t)
  }

  lemma Utf8Valid(c: char)
    ensures ValidUtf8(Utf8(c)) && CodePoint(Utf8(c)) == c as int
  {
    var n := c as int;
    var n1, n2 := n / 64, n / 64 / 64;
    assert n == 64 * n1 + n % 64 && 0 <= n % 64 < 64;
    assert n1 == 64 * n2 + n1 % 64 && 0 <= n1 % 64 < 64;
    assert n2 == 64 * (n2 / 64) + n2 % 64 && 0 <= n2 % 64 < 64;
    var bs := Utf8(c);
    if n < 0x80 {
    } else if n < 0x800 {
      assert CodePoint(bs) == n;
    } else if n < 0x10000 {
      assert CodePoint(bs) == n;
    } else {
      assert CodePoint(bs) == n;
    }
  }

  /** The escape of `b` spells `b`. */
  lemma EscapedByteOf(b: int, rest: string)
    requires IsByte(b)
    ensures EscapedByte(Escape(b) + rest) == Some(b)
  {
    var s := Escape(b) + rest;
    assert s[0] == '%' && s[1] == HexDigit(b / 16) && s[2] == HexDigit(b % 16);
    assert HexValue(s[1]) == Some(b / 16);
    assert HexValue(s[2]) == Some(b % 16);
  }

  lemma {:induction false} EscapeAllDecodes(bs: seq<int>, rest: string)
    requires forall i :: 0 <= i < |bs| ==> IsByte(bs[i])
    ensures EscapedBytes(EscapeAll(bs) + rest, |bs|) == Some(bs)
  {
    if bs != [] {
      var tail := EscapeAll(bs[1..]) + rest;
      var s := EscapeAll(bs) + rest;
      assert s == Escape(bs[0]) + tail;
      EscapedByteOf(bs[0], tail);
      assert s[3..] == tail;
      EscapeAllDecodes(bs[1..], rest);
      assert EscapedByte(s) == Some(bs[0]) && EscapedBytes(s[3..], |bs| - 1) == Some(bs[1..]);
      assert [bs[0]] + bs[1..] == bs;
    }
  }

  /** The escapes of a valid UTF-8 sequence decode to its code point. */
  lemma DecodeEscaped(bs: seq<int>, rest: string)
    requires ValidUtf8(bs)
    ensures 0 <= CodePoint(bs) && DecodeURIComponent(EscapeAll(bs) + rest) ==
            match DecodeURIComponent(rest) case None => None case Some(t) => Some([CodePoint(bs) as char] + t)
  {
    var s := EscapeAll(bs) + rest;
    assert s == Escape(bs[0]) + (EscapeAll(bs[1..]) + rest);
    EscapedByteOf(bs[0], EscapeAll(bs[1..]) + rest);
    EscapeAllDecodes(bs, rest);
    assert s[0] == '%';
    assert EscapedBytes(s, SequenceLength(bs[0])) == Some(bs);
    assert s[3 * |bs|..] == rest;
  }

  lemma EncodeCharDecodes(c: char, rest: string)
    ensures DecodeURIComponent(EncodeChar(c) + rest) ==
            match DecodeURIComponent(rest) case None => None case Some(t) => Some([c] + t)
  {
    var s := EncodeChar(c) + rest;
    if Unreserved(c) {
      assert s[0] == c && s[1..] == rest;
    } else {
      Utf8Valid(c);
      DecodeEscaped(Utf8(c), rest);
    }
  }

  /** Decoding undoes encoding, for every string. */
  lemma {:induction false} DecodeEncode(s: string)
    ensures DecodeURIComponent(EncodeURIComponent(s)) == Some(s)
  {
    if s != [] {
      DecodeEncode(s[1..]);
      EncodeCharDecodes(s[0], EncodeURIComponent(s[1..]));
      assert [s[0]] + s[1..] == s;
    }
  }

  /** Distinct strings encode differently. */
  lemma EncodeInjective(a: string, b: string)
    requires EncodeURIComponent(a) == EncodeURIComponent(b)
    ensures a == b
  {
    DecodeEncode(a);
    DecodeEncode(b);
  }

  /** An id made of unreserved characters only (such as `TABLE-123`) is written as it is. */
  lemma {:induction false} EncodeUnreserved(s: string)
    requires forall i :: 0 <= i < |s| ==> Unreserved(s[i])
    ensures EncodeURIComponent(s) == s
  {
    if s != [] {
      EncodeUnreserved(s[1..]);
      assert [s[0]] + s[1..] == s;
    }
  }

  lemma {:induction false} EscapeAllSafe(bs: seq<int>)
    requires forall i :: 0 <= i < |bs| ==> IsByte(bs[i])
    ensures forall i :: 0 <= i < |EscapeAll(bs)| ==> Unreserved(EscapeAll(bs)[i]) || EscapeAll(bs)[i] == '%'
  {
    if bs != [] {
      EscapeAllSafe(bs[1..]);
      var e := Escape(bs[0]);
      assert Unreserved(e[1]) && Unreserved(e[2]);
      assert EscapeAll(bs) == e + EscapeAll(bs[1..]);
    }
  }

  /**
   * The encoded id consists of unreserved characters and `%` only, so it
   * cannot end the query parameter (`&`, `#`) or change the path (`/`, `?`).
   */
  lemma {:induction false} EncodeSafe(s: string)
    ensures forall i :: 0 <= i < |EncodeURIComponent(s)| ==>
              Unreserved(EncodeURIComponent(s)[i]) || EncodeURIComponent(s)[i] == '%'
  {
    if s != [] {
      EncodeSafe(s[1..]);
      if !Unreserved(s[0]) {
        EscapeAllSafe(Utf8(s[0]));
      }
      assert EncodeURIComponent(s) == EncodeChar(s[0]) + EncodeURIComponent(s[1..]);
    }
  }

  // ---------------------------------------------------------------------
  // The ordering URL and the QR helpers
  // ---------------------------------------------------------------------

  /** The part of a table the QR helpers read. */
  datatype QrTable = QrTable(id: string, qrUrl: Option<string>)

  const OrderPath := "/order?tableId="

  /**
   * `baseUrl || (typeof window !== 'undefined' ? window.location.origin : '')`;
   * `origin` is the window's origin, `None` where there is no window.
   */
  function Base(baseUrl: Option<string>, origin: Option<string>): string {
    if baseUrl.Some? && baseUrl.value != "" then baseUrl.value else origin.GetOr("")
  }

  /** `${base}/order?tableId=${encodeURIComponent(tableId)}`. */
  function OrderUrl(base: string, tableId: string): (r: string)
    ensures |r| >= |base| + |OrderPath|
    ensures r[..|base| + |OrderPath|] == base + OrderPath
    ensures DecodeURIComponent(r[|base| + |OrderPath|..]) == Some(tableId)
  {
    DecodeEncode(tableId);
    assert (base + OrderPath + EncodeURIComponent(tableId))[|base| + |OrderPath|..] == EncodeURIComponent(tableId);
    base + OrderPath + EncodeURIComponent(tableId)
  }

  /** For one base, distinct tables get distinct ordering URLs. */
  lemma OrderUrlInjective(base: string, a: string, b: string)
    requires OrderUrl(base, a) == OrderUrl(base, b)
    ensures a == b
  {
    var k := |base| + |OrderPath|;
    assert OrderUrl(base, a)[k..] == EncodeURIComponent(a);
    assert OrderUrl(base, b)[k..] == EncodeURIComponent(b);
    EncodeInjective(a, b);
  }

  /** The URL the QR code encodes: `table.qrUrl || orderUrl`. */
  function Target(t: QrTable, baseUrl: Option<string>, origin: Option<string>): string {
    if t.qrUrl.Some? && t.qrUrl.value != "" then t.qrUrl.value else OrderUrl(Base(baseUrl, origin), t.id)
  }

  const PlaceholderHead := "<svg xmlns=\"http://www.w3.org/2000/svg\" width=\"200\" height=\"200\" viewBox=\"0 0 200 200\">\n"
    + "      <rect width=\"198\" height=\"198\" fill=\"white\" stroke=\"black\" stroke-width=\"2\"/>\n"
    + "      <text x=\"100\" y=\"100\" text-anchor=\"middle\" font-size=\"12\" font-family=\"monospace\">\n"
    + "        "
  const PlaceholderMiddle := "\n      </text>\n"
    + "      <text x=\"100\" y=\"120\" text-anchor=\"middle\" font-size=\"8\" fill=\"#666\">\n"
    + "        "
  const PlaceholderTail := "\n      </text>\n    </svg>"

  /** The picture used when the QR library fails. */
  function Placeholder(tableId: string): string {
    PlaceholderHead + ("Table " + tableId) + PlaceholderMiddle + "Scan to order" + PlaceholderTail
  }

  lemma PlaceholderText(tableId: string)
    ensures Text.Includes(Placeholder(tableId), "Table " + tableId)
    ensures Text.Includes(Placeholder(tableId), "Scan to order")
  {
    var caption := "Table " + tableId;
    Text.IncludesSuffix(PlaceholderHead, caption);
    Text.IncludesExtend(PlaceholderHead + caption, caption, PlaceholderMiddle);
    Text.IncludesExtend(PlaceholderHead + caption + PlaceholderMiddle, caption, "Scan to order");
    Text.IncludesExtend(PlaceholderHead + caption + PlaceholderMiddle + "Scan to order", caption, PlaceholderTail);
    Text.IncludesSuffix(PlaceholderHead + caption + PlaceholderMiddle, "Scan to order");
    Text.IncludesExtend(PlaceholderHead + caption + PlaceholderMiddle + "Scan to order", "Scan to order", PlaceholderTail);
  }

  /**
   * `createQrSvgForTable(table, baseUrl)`: the library's SVG for the target
   * URL (`render` stands for `QRCode.toString`, `None` when it throws), or the
   * placeholder. It never fails.
   */
  function SvgForTable(t: QrTable, baseUrl: Option<string>, origin: Option<string>, render: string -> Option<string>): string {
    match render(Target(t, baseUrl, origin))
    case Some(svg) => svg
    case None => Placeholder(t.id)
  }

  /** `createQrDataUrl(table, baseUrl)`: the library's data URL (`render` is `QRCode.toDataURL`); its failure is passed on. */
  function DataUrl(t: QrTable, baseUrl: Option<string>, origin: Option<string>, render: string -> Option<string>): Option<string> {
    render(Target(t, baseUrl, origin))
  }

  /** When the QR library fails, the SVG helper still yields a picture naming the table, while the data-URL helper fails. */
  lemma LibraryFailure(t: QrTable, baseUrl: Option<string>, origin: Option<string>, render: string -> Option<string>)
    requires render(Target(t, baseUrl, origin)).None?
    ensures Text.Includes(SvgForTable(t, baseUrl, origin, render), "Table " + t.id)
    ensures Text.Includes(SvgForTable(t, baseUrl, origin, render), "Scan to order")
    ensures DataUrl(t, baseUrl, origin, render).None?
  {
    PlaceholderText(t.id);
  }

  /**
   * Which URL a table's QR code points at: a non-empty stored `qrUrl` wins;
   * otherwise the ordering URL on the first non-empty of `baseUrl` and the
   * window origin, and the bare path without either.
   */
  lemma TargetChoice(t: QrTable, baseUrl: Option<string>, origin: Option<string>)
    ensures t.qrUrl.Some? && t.qrUrl.value != "" ==> Target(t, baseUrl, origin) == t.qrUrl.value
    ensures t.qrUrl.None? || t.qrUrl.value == "" ==>
              var u := Target(t, baseUrl, origin);
              (baseUrl.Some? && baseUrl.value != "" ==> u[..|baseUrl.value|] == baseUrl.value) &&
              (baseUrl.None? || baseUrl.value == "" ==> u[..|origin.GetOr("")|] == origin.GetOr("")) &&
              DecodeURIComponent(u[|Base(baseUrl, origin)| + |OrderPath|..]) == Some(t.id)
  {
  }

  /** Where the PNG conversion runs: whether `document` and `window` exist and a 2D context is available. */
  datatype Environment = Environment(hasDocument: bool, hasWindow: bool, has2dContext: bool)

  datatype Png<Blob> = Resolved(blob: Blob) | Rejected(message: string)

  /**
   * `svgToPngBlob(svg)`: the environment checks come first; `imageLoads` and
   * `blob` stand for the image decoding and `canvas.toBlob`.
   */
  function SvgToPngBlob<Blob>(env: Environment, imageLoads: bool, blob: Option<Blob>): Png<Blob> {
    if !env.hasDocument || !env.hasWindow then Rejected("Canvas not available in this environment")
    else if !env.has2dContext then Rejected("Could not get 2D context")
    else if !imageLoads then Rejected("Failed to load SVG")
    else match blob
      case Some(b) => Resolved(b)
      case None => Rejected("Failed to create PNG blob")
  }

  /** Without a document or a window the conversion is refused before anything else is tried; otherwise it resolves exactly when every step succeeds. */
  lemma PngEnvironmentGuard<Blob>(env: Environment, imageLoads: bool, blob: Option<Blob>)
    ensures SvgToPngBlob(env, imageLoads, blob) == Rejected("Canvas not available in this environment") <==> !env.hasDocument || !env.hasWindow
    ensures SvgToPngBlob(env, imageLoads, blob).Resolved? <==> env.hasDocument && env.hasWindow && env.has2dContext && imageLoads && blob.Some?
  {
  }
}
