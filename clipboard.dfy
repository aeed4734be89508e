/** The paste button's label, built from what the clipboard holds. */
module Clipboard {
  import opened Text

  /** The clipboard contents as the paste button sees them: the files and whether they were cut. */
  datatype ClipboardInfo = ClipboardInfo(files: seq<string>, cut: bool)

  predicate StartsWith(s: string, prefix: string) {
    |prefix| <= |s| && s[..|prefix|] == prefix
  }

  /** "Move N file(s)" for a cut, "Paste N file(s)" for a copy. */
  function PasteLabel(info: ClipboardInfo): (r: string)
    ensures StartsWith(r, "Move ") <==> info.cut
    ensures StartsWith(r, "Paste ") <==> !info.cut
    ensures r == (if info.cut then "Move " else "Paste ") + Dec(|info.files|)
                 + (if |info.files| == 1 then " file" else " files")
  {
    var n := |info.files|;
    var verb := if info.cut then "Move " else "Paste ";
    var noun := if n == 1 then " file" else " files";
    var r := verb + CountPhrase(n, " file", " files");
    assert CountPhrase(n, " file", " files") == Dec(n) + noun;
    assert verb + (Dec(n) + noun) == verb + Dec(n) + noun;
    assert r[..|verb|] == verb;
    assert r[0] == verb[0];
    r
  }

  /** The label can be read back: it tells apart cut from copy and gives the number of files. */
  lemma PasteLabelDeterminesInfo(a: ClipboardInfo, b: ClipboardInfo)
    requires PasteLabel(a) == PasteLabel(b)
    ensures a.cut == b.cut && |a.files| == |b.files|
  {
    var verb := if a.cut then "Move " else "Paste ";
    var pa := CountPhrase(|a.files|, " file", " files");
    var pb := CountPhrase(|b.files|, " file", " files");
    assert a.cut == b.cut;
    assert (verb + pa)[|verb|..] == pa;
    assert (verb + pb)[|verb|..] == pb;
    CountPhraseInjective(|a.files|, |b.files|, " file", " files");
  }
}
