/** The binary body attachments are posted in: the page fills a buffer sized beforehand, the core
    reads it back frame by frame. */
module AttachmentFraming {
  import opened Options

  type Byte = b: int | 0 <= b < 256

  datatype Thumbnail = Thumbnail(bytes: seq<Byte>, width: nat, height: nat)

  datatype Attachment = Attachment(bytes: seq<Byte>, thumbnail: Option<Thumbnail>)

  const HEADER_SIZE: nat := 24
  /** A buffer's length is a safe integer, and so is the thumbnail size the core accepts. */
  const MAX_LENGTH: nat := 0x1F_FFFF_FFFF_FFFF

  // ---- writing ----

  function Power(width: nat): (p: nat)
    ensures p > 0
  {
    if width == 0 then 1 else 256 * Power(width - 1)
  }

  /** Little-endian, wrapped to its width. */
  function Le(n: nat, width: nat): (s: seq<Byte>)
    ensures |s| == width
  {
    if width == 0 then [] else [n % 256] + Le(n / 256, width - 1)
  }

  function ThumbnailBytes(a: Attachment): seq<Byte> { if a.thumbnail.Some? then a.thumbnail.value.bytes else [] }

  function Width(a: Attachment): nat { if a.thumbnail.Some? then a.thumbnail.value.width else 0 }

  function Height(a: Attachment): nat { if a.thumbnail.Some? then a.thumbnail.value.height else 0 }

  function Header(a: Attachment): (s: seq<Byte>)
    ensures |s| == HEADER_SIZE
  {
    Le(|a.bytes|, 8) + Le(|ThumbnailBytes(a)|, 8)
      + Le(Width(a), 4) + Le(Height(a), 4)
  }

  function Frame(a: Attachment): seq<Byte> { Header(a) + a.bytes + ThumbnailBytes(a) }

  function Encode(list: seq<Attachment>): seq<Byte> {
    if list == [] then [] else Encode(list[..|list| - 1]) + Frame(list[|list| - 1])
  }

  function Size(list: seq<Attachment>): nat {
    if list == [] then 0
    else Size(list[..|list| - 1]) + HEADER_SIZE + |list[|list| - 1].bytes| + |ThumbnailBytes(list[|list| - 1])|
  }

  lemma {:induction false} SizeIsLength(list: seq<Attachment>)
    ensures |Encode(list)| == Size(list)
    decreases |list|
  {
    if list != [] { SizeIsLength(list[..|list| - 1]); }
  }

  lemma {:induction false} SizeGrows(list: seq<Attachment>, i: nat)
    requires i <= |list|
    ensures Size(list[..i]) <= Size(list)
    decreases |list|
  {
    if i < |list| {
      SizeGrows(list[..|list| - 1], i);
      assert list[..|list| - 1][..i] == list[..i];
    } else { assert list[..i] == list; }
  }

  /** Writes behind the first `offset` bytes, within the buffer. */
  method SetBytes(body: array<Byte>, offset: nat, bytes: seq<Byte>)
    requires offset + |bytes| <= body.Length
    modifies body
    ensures body[..offset + |bytes|] == old(body[..offset]) + bytes
  {
    forall i | 0 <= i < |bytes| { body[offset + i] := bytes[i]; }
  }

  method SetHeader(body: array<Byte>, offset: nat, a: Attachment)
    requires offset + HEADER_SIZE <= body.Length
    modifies body
    ensures body[..offset + HEADER_SIZE] == old(body[..offset]) + Header(a)
  {
    ghost var written := body[..offset];
    SetBytes(body, offset, Le(|a.bytes|, 8));
    SetBytes(body, offset + 8, Le(|ThumbnailBytes(a)|, 8));
    SetBytes(body, offset + 16, Le(Width(a), 4));
    SetBytes(body, offset + 20, Le(Height(a), 4));
    Joined(written, Le(|a.bytes|, 8), Le(|ThumbnailBytes(a)|, 8), Le(Width(a), 4), Le(Height(a), 4));
  }

  lemma Joined(s: seq<Byte>, a: seq<Byte>, b: seq<Byte>, c: seq<Byte>, d: seq<Byte>)
    ensures s + a + b + c + d == s + (a + b + c + d)
  {
  }

  method SetFrame(body: array<Byte>, start: nat, a: Attachment) returns (offset: nat)
    requires start + HEADER_SIZE + |a.bytes| + |ThumbnailBytes(a)| <= body.Length
    modifies body
    ensures offset == start + HEADER_SIZE + |a.bytes| + |ThumbnailBytes(a)|
    ensures body[..offset] == old(body[..start]) + Frame(a)
  {
    hide Header;
    ghost var written := body[..start];
    offset := start;
    SetHeader(body, offset, a);
    offset := offset + HEADER_SIZE;
    SetBytes(body, offset, a.bytes);
    offset := offset + |a.bytes|;
    if a.thumbnail.Some? {
      SetBytes(body, offset, a.thumbnail.value.bytes);
      offset := offset + |a.thumbnail.value.bytes|;
    }
    assert body[..offset] == written + Header(a) + a.bytes + ThumbnailBytes(a);
    Joined(written, Header(a), a.bytes, ThumbnailBytes(a), []);
  }

  /** The buffer is exactly as long as what is written, and every write lands behind the last. */
  method AttachmentBytes(attachments: seq<Attachment>) returns (body: array<Byte>)
    ensures fresh(body) && body[..] == Encode(attachments)
  {
    var size := 0;
    for i := 0 to |attachments|
      invariant size == Size(attachments[..i])
    {
      size := size + HEADER_SIZE + |attachments[i].bytes| + |ThumbnailBytes(attachments[i])|;
      assert attachments[..i + 1][..i] == attachments[..i];
    }
    assert attachments[..|attachments|] == attachments;
    body := new Byte[size](_ => 0);
    var offset := 0;
    for i := 0 to |attachments|
      invariant offset == Size(attachments[..i]) <= body.Length
      invariant body[..offset] == Encode(attachments[..i])
    {
      assert attachments[..i + 1][..i] == attachments[..i];
      SizeGrows(attachments, i + 1);
      offset := SetFrame(body, offset, attachments[i]);
    }
    assert body[..offset] == body[..];
  }

  // ---- reading ----

  function FromLe(s: seq<Byte>): nat { if s == [] then 0 else s[0] + 256 * FromLe(s[1..]) }

  datatype Read<T> = Read(value: T, rest: seq<Byte>) | Invalid

  /** One frame. A thumbnail of no bytes is none at all, whatever its dimensions. */
  function DecodeOne(body: seq<Byte>): Read<Attachment> {
    if |body| < HEADER_SIZE then Invalid
    else
      var size, thumbnailSize := FromLe(body[..8]), FromLe(body[8..16]);
      var width, height := FromLe(body[16..20]), FromLe(body[20..24]);
      var rest := body[24..];
      if |rest| < size then Invalid
      else if thumbnailSize == 0 then Read(Attachment(rest[..size], None), rest[size..])
      else if thumbnailSize > MAX_LENGTH || |rest[size..]| < thumbnailSize then Invalid
      else
        Read(Attachment(rest[..size], Some(Thumbnail(rest[size..][..thumbnailSize], width, height))),
            rest[size..][thumbnailSize..])
  }

  function DecodeMany(count: nat, body: seq<Byte>): Read<seq<Attachment>> {
    if count == 0 then Read([], body)
    else
      match DecodeOne(body)
      case Invalid => Invalid
      case Read(first, rest) =>
        match DecodeMany(count - 1, rest)
        case Invalid => Invalid
        case Read(others, left) => Read([first] + others, left)
  }

  /** A gallery's body: so many frames and nothing behind them. */
  function Decode(count: nat, body: seq<Byte>): Option<seq<Attachment>> {
    match DecodeMany(count, body)
    case Read(list, rest) => if rest == [] then Some(list) else None
    case Invalid => None
  }

  // ---- what is written is read back ----

  predicate Fits(a: Attachment) { |a.bytes| <= MAX_LENGTH && |ThumbnailBytes(a)| <= MAX_LENGTH }

  /** What arrives of an attachment. */
  function Carried(a: Attachment): Attachment {
    if ThumbnailBytes(a) == [] then a.(thumbnail := None)
    else
      var t := a.thumbnail.value;
      a.(thumbnail := Some(Thumbnail(t.bytes, t.width % Power(4), t.height % Power(4))))
  }

  lemma ModUnique(n: nat, m: nat, k: nat, r: nat)
    requires m > 0 && n == m * k + r && r < m
    ensures n % m == r
  {
    var d := n / m - k;
    assert m * d == r - n % m by { assert n == m * (n / m) + n % m; }
    MultipleGrows(m, d);
  }

  lemma MultipleGrows(m: nat, d: int)
    ensures d > 0 ==> m * d >= m
    ensures d < 0 ==> m * d + m <= 0
  {
  }

  lemma ModSplits(n: nat, m: nat)
    requires m > 0
    ensures n % (256 * m) == n % 256 + 256 * (n / 256 % m)
  {
    var q := n / 256;
    var k, r := q / m, n % 256 + 256 * (q % m);
    assert n == 256 * m * k + r by { assert q == m * k + q % m; }
    ModUnique(n, 256 * m, k, r);
  }

  lemma {:induction false} LeReadsBack(n: nat, width: nat)
    ensures FromLe(Le(n, width)) == n % Power(width)
    decreases width
  {
    if width > 0 {
      LeReadsBack(n / 256, width - 1);
      ModSplits(n, Power(width - 1));
    }
  }

  lemma LengthReadsBack(n: nat)
    requires n <= MAX_LENGTH
    ensures FromLe(Le(n, 8)) == n
  {
    LeReadsBack(n, 8);
    assert Power(8) == 0x1_0000_0000 * 0x1_0000_0000;
  }

  lemma Parts(header: seq<Byte>, bytes: seq<Byte>, thumbnail: seq<Byte>, rest: seq<Byte>)
    requires |header| == HEADER_SIZE
    ensures var body := header + bytes + thumbnail + rest;
      && body[..8] == header[..8] && body[8..16] == header[8..16] && body[16..20] == header[16..20]
        && body[20..24] == header[20..]
      && body[24..][..|bytes|] == bytes && body[24..][|bytes|..] == thumbnail + rest
      && (thumbnail + rest)[..|thumbnail|] == thumbnail && (thumbnail + rest)[|thumbnail|..] == rest
  {
  }

  lemma HeaderReadsBack(a: Attachment)
    requires Fits(a)
    ensures FromLe(Header(a)[..8]) == |a.bytes| && FromLe(Header(a)[8..16]) == |ThumbnailBytes(a)|
    ensures FromLe(Header(a)[16..20]) == Width(a) % Power(4) && FromLe(Header(a)[20..]) == Height(a) % Power(4)
  {
    LengthReadsBack(|a.bytes|);
    LengthReadsBack(|ThumbnailBytes(a)|);
    LeReadsBack(Width(a), 4);
    LeReadsBack(Height(a), 4);
    var l, t, w, h := Le(|a.bytes|, 8), Le(|ThumbnailBytes(a)|, 8), Le(Width(a), 4), Le(Height(a), 4);
    assert Header(a)[..8] == l && Header(a)[8..16] == t && Header(a)[16..20] == w && Header(a)[20..] == h;
  }

  lemma FrameReadsBack(a: Attachment, rest: seq<Byte>)
    requires Fits(a)
    ensures DecodeOne(Frame(a) + rest) == Read(Carried(a), rest)
  {
    hide Header, FromLe, Power;
    HeaderReadsBack(a);
    Parts(Header(a), a.bytes, ThumbnailBytes(a), rest);
  }

  function CarriedAll(list: seq<Attachment>): (carried: seq<Attachment>)
    ensures |carried| == |list|
  {
    seq(|list|, i requires 0 <= i < |list| => Carried(list[i]))
  }

  lemma {:induction false} FirstFrame(list: seq<Attachment>)
    requires list != []
    ensures Encode(list) == Frame(list[0]) + Encode(list[1..])
    decreases |list|
  {
    var n := |list| - 1;
    if n > 0 {
      FirstFrame(list[..n]);
      assert list[..n][1..] == list[1..][..n - 1];
    }
  }

  lemma NoFrames()
    ensures Encode([]) == []
  {
  }

  lemma {:induction false} ManyReadBack(list: seq<Attachment>, rest: seq<Byte>)
    requires forall i :: 0 <= i < |list| ==> Fits(list[i])
    ensures DecodeMany(|list|, Encode(list) + rest) == Read(CarriedAll(list), rest)
    decreases |list|
  {
    hide Frame, DecodeOne, Encode, Carried, Fits;
    if list != [] {
      FirstFrame(list);
      var others := Encode(list[1..]) + rest;
      assert Encode(list) + rest == Frame(list[0]) + others;
      FrameReadsBack(list[0], others);
      ManyReadBack(list[1..], rest);
      assert CarriedAll(list) == [Carried(list[0])] + CarriedAll(list[1..]);
    } else {
      NoFrames();
      assert [] + rest == rest;
    }
  }

  /** Every list comes back, with an absent thumbnail and an empty one alike and dimensions of 32 bits. */
  lemma RoundTrip(list: seq<Attachment>)
    requires forall i :: 0 <= i < |list| ==> Fits(list[i])
    ensures Decode(|list|, Encode(list)) == Some(CarriedAll(list))
  {
    ManyReadBack(list, []);
    assert Encode(list) + [] == Encode(list);
  }

  // ---- and nothing else is read from a part of it ----

  lemma OneExtends(body: seq<Byte>, more: seq<Byte>)
    requires DecodeOne(body).Read?
    ensures DecodeOne(body + more) == Read(DecodeOne(body).value, DecodeOne(body).rest + more)
  {
    var longer := body + more;
    assert longer[..8] == body[..8] && longer[8..16] == body[8..16];
    assert longer[16..20] == body[16..20] && longer[20..24] == body[20..24];
    assert longer[24..] == body[24..] + more;
    var size, rest := FromLe(body[..8]), body[24..];
    assert (rest + more)[..size] == rest[..size] && (rest + more)[size..] == rest[size..] + more;
    var n, left := FromLe(body[8..16]), rest[size..];
    if n <= |left| { assert (left + more)[..n] == left[..n] && (left + more)[n..] == left[n..] + more; }
  }

  lemma {:induction false} ManyExtend(count: nat, body: seq<Byte>, more: seq<Byte>)
    requires DecodeMany(count, body).Read?
    ensures DecodeMany(count, body + more) == Read(DecodeMany(count, body).value, DecodeMany(count, body).rest + more)
    decreases count
  {
    if count > 0 {
      OneExtends(body, more);
      ManyExtend(count - 1, DecodeOne(body).rest, more);
    }
  }

  /** No body is the start of another of as many attachments: bytes cut off or added are noticed. */
  lemma PrefixFree(count: nat, body: seq<Byte>, more: seq<Byte>)
    requires Decode(count, body).Some? && Decode(count, body + more).Some?
    ensures more == []
  {
    ManyExtend(count, body, more);
  }

  lemma TruncationIsNoticed(list: seq<Attachment>, length: nat)
    requires forall i :: 0 <= i < |list| ==> Fits(list[i])
    requires length < |Encode(list)|
    ensures Decode(|list|, Encode(list)[..length]) == None
  {
    var body := Encode(list);
    RoundTrip(list);
    if Decode(|list|, body[..length]).Some? {
      assert body[..length] + body[length..] == body;
      PrefixFree(|list|, body[..length], body[length..]);
    }
  }
}
