/**
 * The single-selection page: which preview the button shows, whether the
 * preview button can be pressed, and the description line under the name.
 */
module SingleFile {
  import opened Optional
  import opened Text
  import opened Selection

  /** The thumbnail image is used when the file has a thumbnail and thumbnails are switched on; otherwise the type icon. */
  function ShowsThumbnail(file: Entry, showThumbnail: bool): (r: bool)
  {
    file.hasThumbnail && showThumbnail
  }

  /**
   * The preview button is sensitive only for a thumbnail shown for a file that
   * is not a folder: folders are never previewed, and an icon is never previewable.
   */
  function PreviewSensitive(file: Entry, showThumbnail: bool): (r: bool)
    ensures r ==> !file.isDirectory
  {
    var sensitive := ShowsThumbnail(file, showThumbnail);
    sensitive && !file.isDirectory
  }

  /**
   * The second line of the page, None when it is hidden: a folder shows how
   * many items it contains when that count is available, any other file its
   * formatted size (whatever its can-get-size query answers).
   */
  function Description(file: Entry, formatSize: nat -> string): (r: Option<string>)
    ensures r.None? <==> file.isDirectory && file.directoryItemCount.None?
    ensures !file.isDirectory ==> r == Some(formatSize(file.size))
    ensures file.isDirectory && r.Some? ==>
      |r.value| > 9 && r.value[..9] == "Contains " && IsDigit(r.value[9])
    ensures file.isDirectory && file.directoryItemCount.Some? ==>
      r == Some("Contains " + Dec(file.directoryItemCount.value)
                + (if file.directoryItemCount.value == 1 then " item" else " items"))
  {
    if file.isDirectory then
      if file.directoryItemCount.Some? then
        var n := file.directoryItemCount.value;
        var noun := if n == 1 then " item" else " items";
        assert CountPhrase(n, " item", " items") == Dec(n) + noun;
        assert "Contains " + (Dec(n) + noun) == "Contains " + Dec(n) + noun;
        Some("Contains " + CountPhrase(n, " item", " items"))
      else
        None
    else
      Some(formatSize(file.size))
  }

  /** A folder's description names its item count, and two folders share a description only if they share a count. */
  lemma FolderDescriptionDeterminesCount(a: Entry, b: Entry, formatSize: nat -> string)
    requires a.isDirectory && b.isDirectory
    requires a.directoryItemCount.Some? && b.directoryItemCount.Some?
    requires Description(a, formatSize) == Description(b, formatSize)
    ensures a.directoryItemCount == b.directoryItemCount
  {
    var m, n := a.directoryItemCount.value, b.directoryItemCount.value;
    var pm, pn := CountPhrase(m, " item", " items"), CountPhrase(n, " item", " items");
    assert ("Contains " + pm)[9..] == pm;
    assert ("Contains " + pn)[9..] == pn;
    CountPhraseInjective(m, n, " item", " items");
  }
}
