/**
 * The per-file decision engine of the converter: the classifier adapter that
 * collapses the detector's answer to one label, the branch table over that
 * label, and what each branch does to the bytes of the file.
 *
 * The detector (chardet), the decoder (iconv-lite), the UTF-8 check of
 * `strip-bom-buf` (is-utf8), the UTF-8 encoding that `writeFile` applies to a
 * string and whether `writeFile` succeeds are foreign code; they are the
 * fields of a `Codecs` value and nothing is assumed about them.
 */
module Decision {
  import opened Wrappers
  import opened Text

  /** One entry of a ranked detector answer. */
  datatype Candidate = Candidate(name: string, confidence: int)

  /** What the detector returns: a label, a ranked list, or `null`. */
  datatype Detection =
    | Label(encoding: string)
    | Ranked(candidates: seq<Candidate>)
    | Null

  /** The foreign collaborators, as opaque functions. */
  datatype Codecs = Codecs(
    detect: Bytes -> Detection,
    // `iconv.decode(bytes, encoding)`; `None` is a thrown error
    decode: (Bytes, string) -> Option<string>,
    // is-utf8, which `strip-bom-buf` consults before it strips
    isUtf8: Bytes -> bool,
    // the UTF-8 bytes `writeFile` stores for a string
    encodeUtf8: string -> Bytes,
    // whether `fs.promises.writeFile(path, bytes)` resolves; false is a rejection
    writeFile: (string, Bytes) -> bool)

  /**
   * The classifier adapter. A string answer is the label; a ranked list gives
   * the name of its first candidate. `null` and an empty list make the source
   * throw a TypeError (`null[0]`, `undefined.name`), which is `None` here.
   */
  function MostPossibleEncoding(d: Detection): (r: Option<string>)
    ensures d.Label? ==> r == Some(d.encoding)
    ensures d.Ranked? && |d.candidates| > 0 ==> r == Some(d.candidates[0].name)
    ensures r.None? <==> d.Null? || (d.Ranked? && |d.candidates| == 0)
  {
    match d
    case Label(s) => Some(s)
    case Ranked(cs) => if |cs| > 0 then Some(cs[0].name) else None
    case Null => None
  }

  /** The detector ranks its candidates best first. */
  ghost predicate RankedBestFirst(cs: seq<Candidate>)
  {
    forall i, j :: 0 <= i < j < |cs| ==> cs[i].confidence >= cs[j].confidence
  }

  /** With a best-first ranking, the adapter picks a candidate no other candidate beats. */
  lemma TopCandidateIsMostConfident(cs: seq<Candidate>)
    requires |cs| > 0 && RankedBestFirst(cs)
    ensures MostPossibleEncoding(Ranked(cs)).Some?
    ensures exists i :: 0 <= i < |cs| && cs[i].name == MostPossibleEncoding(Ranked(cs)).value
                        && forall j :: 0 <= j < |cs| ==> cs[j].confidence <= cs[i].confidence
  {
    assert forall j :: 0 <= j < |cs| ==> cs[j].confidence <= cs[0].confidence by {
      forall j | 0 <= j < |cs| ensures cs[j].confidence <= cs[0].confidence {
        if j > 0 { assert RankedBestFirst(cs); }
      }
    }
  }

  /** The UTF-8 byte-order mark. */
  const BOM: Bytes := [0xEF, 0xBB, 0xBF]

  /**
   * `fbuf[0] === 0xef && fbuf[1] === 0xbb && fbuf[2] === 0xbf`: the buffer
   * starts with the BOM. A missing byte is `undefined`, so a buffer shorter
   * than three bytes never passes.
   */
  predicate HasBom(buf: Bytes)
    ensures HasBom(buf) <==> BOM <= buf
  {
    assert |buf| >= 3 ==> (buf[..3] == BOM <==> buf[0] == 0xEF && buf[1] == 0xBB && buf[2] == 0xBF);
    |buf| >= 3 && buf[0] == 0xEF && buf[1] == 0xBB && buf[2] == 0xBF
  }

  /**
   * `strip-bom-buf`: the three BOM bytes go only when the buffer starts with
   * them and is valid UTF-8 as a whole; otherwise the buffer is returned as it is.
   */
  function StripBomBuffer(c: Codecs, buf: Bytes): (r: Bytes)
    ensures HasBom(buf) && c.isUtf8(buf) ==> BOM + r == buf && |r| == |buf| - 3
    ensures !(HasBom(buf) && c.isUtf8(buf)) ==> r == buf
  {
    if HasBom(buf) && c.isUtf8(buf) then buf[3..] else buf
  }

  /** Stripping undoes prefixing valid UTF-8 with a BOM: exactly the three BOM bytes go. */
  lemma StripBomBufferAfterBom(c: Codecs, rest: Bytes)
    requires c.isUtf8(BOM + rest)
    ensures HasBom(BOM + rest) && StripBomBuffer(c, BOM + rest) == rest
  {
    assert (BOM + rest)[3..] == rest;
  }

  /** The byte-order mark as a decoded character. */
  const BomChar: char := '\U{FEFF}'

  /** `strip-bom`: removes one leading BOM character, if there is one. */
  function StripBom(text: string): (r: string)
    ensures |text| > 0 && text[0] == BomChar ==> [BomChar] + r == text
    ensures !(|text| > 0 && text[0] == BomChar) ==> r == text
  {
    if |text| > 0 && text[0] == BomChar then text[1..] else text
  }

  /** The four branches of the `if` chain on the detected label. */
  datatype Branch = Utf8 | Gbk | Utf16 | Other

  /**
   * The branch table. The comparison with "UTF-8" is exact and case-sensitive,
   * "Big5" and "GB18030" share the GBK branch, and any label containing
   * "UTF-16" is decoded with itself; everything else is tried.
   */
  function BranchOf(encoding: string): (b: Branch)
    ensures b == Utf8 <==> encoding == "UTF-8"
    ensures b == Gbk <==> encoding == "Big5" || encoding == "GB18030"
    ensures b == Utf16 <==> Contains(encoding, "UTF-16")
    ensures b == Other <==> encoding != "UTF-8" && encoding != "Big5" && encoding != "GB18030"
                            && !Contains(encoding, "UTF-16")
  {
    LacksFirstChar("GB18030", "UTF-16");
    if encoding == "UTF-8" then Utf8
    else if encoding == "Big5" || encoding == "GB18030" then Gbk
    else if Contains(encoding, "UTF-16") then Utf16
    else Other
  }

  /** The encoding name handed to the decoder: "GBK" on the GBK branch, else the label. */
  function DecoderLabel(encoding: string): (name: string)
    ensures BranchOf(encoding) == Gbk ==> name == "GBK"
    ensures BranchOf(encoding) != Gbk ==> name == encoding
  {
    if BranchOf(encoding) == Gbk then "GBK" else encoding
  }

  /** What happens to one file once its label is known. */
  datatype Effect =
    | Unchanged                 // no write
    | Rewrite(content: Bytes)   // the file's new bytes
    | DecodeFailed              // the try/catch branch caught a decode error
    | Throws                    // a decode error outside the try: the run stops

  /** The decision engine for one file with bytes `buf` and detected `encoding`. */
  function Decide(c: Codecs, encoding: string, buf: Bytes): (e: Effect)
    // UTF-8: written exactly when the BOM bytes are there, without them when the buffer is valid UTF-8
    ensures encoding == "UTF-8" ==> (e.Rewrite? <==> HasBom(buf)) && (e.Unchanged? <==> !HasBom(buf))
    ensures encoding == "UTF-8" && e.Rewrite? && c.isUtf8(buf) ==> BOM + e.content == buf && |e.content| == |buf| - 3
    ensures encoding == "UTF-8" && e.Rewrite? && !c.isUtf8(buf) ==> e.content == buf
    // only the UTF-8 branch can leave a file alone without an error
    ensures e.Unchanged? ==> encoding == "UTF-8" && !HasBom(buf)
    // the other branches write the BOM-less decoded text as UTF-8
    ensures encoding != "UTF-8" && e.Rewrite? ==>
              c.decode(buf, DecoderLabel(encoding)).Some?
              && e.content == c.encodeUtf8(StripBom(c.decode(buf, DecoderLabel(encoding)).value))
    ensures encoding != "UTF-8" ==> (e.Rewrite? <==> c.decode(buf, DecoderLabel(encoding)).Some?)
    // a failed decode is caught only on the last branch; on the GBK and UTF-16 branches it escapes
    ensures e.DecodeFailed? <==> BranchOf(encoding) == Other && c.decode(buf, encoding).None?
    ensures e.Throws? <==> (BranchOf(encoding) == Gbk || BranchOf(encoding) == Utf16)
                           && c.decode(buf, DecoderLabel(encoding)).None?
  {
    match BranchOf(encoding)
    case Utf8 => if HasBom(buf) then Rewrite(StripBomBuffer(c, buf)) else Unchanged
    case Gbk =>
      (match c.decode(buf, "GBK")
       case Some(text) => Rewrite(c.encodeUtf8(StripBom(text)))
       case None => Throws)
    case Utf16 =>
      (match c.decode(buf, encoding)
       case Some(text) => Rewrite(c.encodeUtf8(StripBom(text)))
       case None => Throws)
    case Other =>
      (match c.decode(buf, encoding)
       case Some(text) => Rewrite(c.encodeUtf8(StripBom(text)))
       case None => DecodeFailed)
  }

  /** A string without the first character of `t` does not contain `t`. */
  lemma LacksFirstChar(s: string, t: string)
    requires |t| > 0 && forall i :: 0 <= i < |s| ==> s[i] != t[0]
    ensures !Contains(s, t)
  {
    forall i | 0 <= i <= |s| - |t| ensures !OccursAt(s, t, i) {
      assert s[i..i + |t|][0] == s[i];
    }
  }

  /** The detector's UTF-16 labels take the UTF-16 branch; lower-case "utf-8" is not UTF-8. */
  lemma UnicodeLabels()
    ensures BranchOf("UTF-8") == Utf8 && BranchOf("utf-8") != Utf8
    ensures BranchOf("UTF-16LE") == Utf16 && BranchOf("UTF-16BE") == Utf16
  {
    assert OccursAt("UTF-16LE", "UTF-16", 0);
    assert OccursAt("UTF-16BE", "UTF-16", 0);
  }

  /** Big5 shares the GBK branch; single-byte labels are tried like any other. */
  lemma OtherLabels()
    ensures BranchOf("Big5") == Gbk && BranchOf("GB18030") == Gbk
    ensures BranchOf("ISO-8859-1") == Other && BranchOf("Shift_JIS") == Other
  {
    LacksFirstChar("ISO-8859-1", "UTF-16");
    LacksFirstChar("Shift_JIS", "UTF-16");
  }
}
