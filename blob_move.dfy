/**
 * The part of `move_blob_with_virtual_folder` that does not talk to storage:
 * the date check `re.match(r"\d{4}/\d{2}/\d{2}$", name)`, the virtual folder
 * path, the destination blob path, and the storage calls it would issue,
 * recorded as effects.
 */
module BlobMove {
  import opened Wrappers

  /** One fixed-width piece of a regular expression: `\d` or a literal character. */
  datatype Atom = Digit | Char(c: char)

  /** `\d`, restricted to the ASCII digits. */
  predicate IsAsciiDigit(c: char)
  {
    '0' <= c <= '9'
  }

  predicate Accepts(a: Atom, c: char)
  {
    match a
    case Digit => IsAsciiDigit(c)
    case Char(x) => c == x
  }

  /** `\d{4}/\d{2}/\d{2}`, each counted repetition written out atom by atom. */
  const DatePattern: seq<Atom> :=
    [Digit, Digit, Digit, Digit, Char('/'), Digit, Digit, Char('/'), Digit, Digit]

  /** Python's `$`: the end of the subject, or just before a final newline. */
  predicate AtEnd(s: string, i: nat)
  {
    i == |s| || (i + 1 == |s| && s[i] == '\n')
  }

  /**
   * Matches `atoms` followed by `$` against `s` from position `i`, and gives
   * the position where the matched text ends.
   */
  function MatchFrom(atoms: seq<Atom>, s: string, i: nat): (end: Option<nat>)
    requires i <= |s|
    ensures end.Some? ==> end.value == i + |atoms| && end.value <= |s| && AtEnd(s, end.value)
    decreases |atoms|
  {
    if atoms == [] then
      if AtEnd(s, i) then Some(i) else None
    else if i < |s| && Accepts(atoms[0], s[i]) then
      MatchFrom(atoms[1..], s, i + 1)
    else
      None
  }

  /** The matcher accepts exactly when every atom accepts its character and `$` holds after them. */
  lemma {:induction false} MatchFromAccepts(atoms: seq<Atom>, s: string, i: nat)
    requires i <= |s|
    ensures MatchFrom(atoms, s, i).Some? <==>
              && i + |atoms| <= |s|
              && (forall j :: 0 <= j < |atoms| ==> Accepts(atoms[j], s[i + j]))
              && AtEnd(s, i + |atoms|)
    decreases |atoms|
  {
    if atoms != [] && i < |s| {
      MatchFromAccepts(atoms[1..], s, i + 1);
      if MatchFrom(atoms, s, i).Some? {
        forall j | 0 <= j < |atoms| ensures Accepts(atoms[j], s[i + j]) {
          if j > 0 {
            assert atoms[j] == atoms[1..][j - 1];
          }
        }
      } else if i + |atoms| <= |s| && AtEnd(s, i + |atoms|) && Accepts(atoms[0], s[i]) {
        var j :| 0 <= j < |atoms[1..]| && !Accepts(atoms[1..][j], s[i + 1 + j]);
        assert !Accepts(atoms[j + 1], s[i + (j + 1)]);
      }
    }
  }

  /** `DDDD/DD/DD` with ASCII digits. */
  predicate IsDateFragment(d: string)
  {
    && |d| == 10
    && IsAsciiDigit(d[0]) && IsAsciiDigit(d[1]) && IsAsciiDigit(d[2]) && IsAsciiDigit(d[3])
    && d[4] == '/'
    && IsAsciiDigit(d[5]) && IsAsciiDigit(d[6])
    && d[7] == '/'
    && IsAsciiDigit(d[8]) && IsAsciiDigit(d[9])
  }

  /** A blob name the date check lets through: a date fragment, optionally followed by one newline. */
  predicate IsDateName(s: string)
  {
    && (|s| == 10 || (|s| == 11 && s[10] == '\n'))
    && IsDateFragment(s[..10])
  }

  /** The date pattern, matched from position 0, accepts exactly the date names. */
  lemma DatePatternMeaning(s: string)
    ensures MatchFrom(DatePattern, s, 0).Some? <==> IsDateName(s)
  {
  }

  /**
   * `re.match(r"\d{4}/\d{2}/\d{2}$", s)`, giving `match.group(0)` on a match.
   * `re.match` only tries position 0, so nothing may precede the date; the
   * matched text never includes the optional final newline.
   */
  function DateMatch(s: string): (m: Option<string>)
    ensures m.Some? <==> IsDateName(s)
    ensures m.Some? ==> m.value == s[..10] && IsDateFragment(m.value)
  {
    DatePatternMeaning(s);
    match MatchFrom(DatePattern, s, 0)
    case Some(end) => Some(s[..end])
    case None => None
  }

  /** Text before the date fragment makes the check fail, whatever that text is. */
  lemma PrefixedDateRejected(prefix: string, date: string)
    requires prefix != [] && IsDateFragment(date)
    ensures DateMatch(prefix + date) == None
    ensures DateMatch(prefix + date + "\n") == None
  {
  }

  /** A date fragment passes with or without one final newline, and the match is the fragment. */
  lemma TrailingNewline(date: string)
    requires IsDateFragment(date)
    ensures DateMatch(date) == Some(date)
    ensures DateMatch(date + "\n") == Some(date)
    ensures DateMatch(date + "\n\n") == None
  {
    assert date[..10] == date;
    assert (date + "\n")[..10] == date;
  }

  /**
   * `os.path.join(a, b)` on POSIX, two components. The second part always
   * ends the path whole; a relative second part follows the first whole,
   * with a `/` between them exactly when the first part is non-empty and
   * does not already end in one.
   */
  function JoinPath(a: string, b: string): (p: string)
    ensures |b| <= |p| && p[|p| - |b|..] == b
    ensures (b == [] || b[0] != '/') ==> |a| + |b| <= |p| <= |a| + 1 + |b| && p[..|a|] == a
    ensures (b == [] || b[0] != '/') && |p| == |a| + |b| + 1 ==> p[|a|] == '/'
    ensures (b == [] || b[0] != '/') && a != [] && a[|a| - 1] != '/' ==> |p| == |a| + |b| + 1
    ensures (b == [] || b[0] != '/') && (a == [] || a[|a| - 1] == '/') ==> |p| == |a| + |b|
    ensures b != [] && b[0] == '/' ==> |p| == |b|
  {
    if b != [] && b[0] == '/' then b
    else if a == [] || a[|a| - 1] == '/' then a + b
    else a + "/" + b
  }

  /** The storage calls a move can issue, in the order it issues them. */
  datatype Effect =
      /** `create_virtual_folder`: create the container if absent, then an empty marker blob at the path. */
    | CreateVirtualFolder(container: string, folderPath: string)
      /** `copy_blob` from the source blob path to the destination container and path. */
    | CopyBlob(sourcePath: string, destinationContainer: string, destinationPath: string)

  /** `f"{folder_mnemonic}/{date_str}"`. */
  function VirtualFolderPath(folderMnemonic: string, dateStr: string): string
  {
    folderMnemonic + "/" + dateStr
  }

  /** `virtual_folder_path + "/" + source_blob_name`. */
  function DestinationBlobPath(virtualFolderPath: string, sourceBlobName: string): string
  {
    virtualFolderPath + "/" + sourceBlobName
  }

  /**
   * `move_blob_with_virtual_folder`, as the list of storage calls it makes.
   * A rejected name returns at once: nothing is created and nothing is copied.
   * An accepted name creates the folder `mnemonic/date` and copies the blob
   * into it under its own full name.
   */
  function MoveBlob(sourceContainer: string, sourceBlobName: string,
                    destinationContainer: string, folderMnemonic: string): (effects: seq<Effect>)
    ensures effects == [] <==> !IsDateName(sourceBlobName)
    ensures IsDateName(sourceBlobName) ==>
              && |effects| == 2
              && effects[0] == CreateVirtualFolder(destinationContainer,
                                                   folderMnemonic + "/" + sourceBlobName[..10])
              && effects[1] == CopyBlob(JoinPath(sourceContainer, sourceBlobName),
                                        destinationContainer,
                                        effects[0].folderPath + "/" + sourceBlobName)
  {
    match DateMatch(sourceBlobName)
    case None => []
    case Some(dateStr) =>
      var folder := VirtualFolderPath(folderMnemonic, dateStr);
      [ CreateVirtualFolder(destinationContainer, folder),
        CopyBlob(JoinPath(sourceContainer, sourceBlobName), destinationContainer,
                 DestinationBlobPath(folder, sourceBlobName)) ]
  }
}
