/** How object keys are built and checked: track ids are normalised to one path segment, and the original audio of
    a track stands under raw/{id}/original{ext}. */
module TrackKeys {
  import opened GoPaths

  datatype KeyError = InvalidSegment | DisallowedCharacter | InvalidFilename | UnsupportedExtension(ext: string)

  datatype Result<T> = Success(value: T) | Failure(error: KeyError) {
    predicate IsFailure() {
      Failure?
    }
    function PropagateFailure<U>(): Result<U>
      requires Failure?
    {
      Failure(error)
    }
    function Extract(): T
      requires Success?
    {
      value
    }
  }

  /** The characters of the regular expression ^[a-zA-Z0-9._-]+$ */
  predicate AllowedChar(c: char) {
    'a' <= c <= 'z' || 'A' <= c <= 'Z' || '0' <= c <= '9' || c == '.' || c == '_' || c == '-'
  }

  predicate AllAllowed(s: string) {
    forall i | 0 <= i < |s| :: AllowedChar(s[i])
  }

  function NormalizeSegment(value: string): Result<string> {
    var v := CleanBelowRoot(TrimSpace(value));
    if v == "" || v == "." || !SlashFree(v) then Failure(InvalidSegment)
    else if !AllAllowed(v) then Failure(DisallowedCharacter)
    else Success(v)
  }

  predicate AudioExtension(ext: string) {
    ext == ".mp3" || ext == ".flac" || ext == ".wav" || ext == ".aac" || ext == ".m4a" || ext == ".ogg"
  }

  /** The extension a file name contributes to its key. */
  function KeyExtension(filename: string): string {
    var ext := Lower(Ext(TrimSpace(filename)));
    if ext == "" then ".bin" else ext
  }

  function OriginalKey(trackId: string, filename: string): Result<string> {
    var id :- NormalizeSegment(trackId);
    if TrimSpace(filename) == "" then Failure(InvalidFilename)
    else if !AudioExtension(KeyExtension(filename)) then Failure(UnsupportedExtension(KeyExtension(filename)))
    else Success(PathJoin(["raw", id, "original" + KeyExtension(filename)]))
  }

  /** validateKey */
  predicate ValidKey(key: string) {
    var k := TrimSpace(CleanBelowRoot(key));
    k != "" && k != "."
  }

  /** The prefix ListRaw asks the store for. */
  function ListPrefix(trackId: string): Result<string> {
    var id :- NormalizeSegment(trackId);
    Success(PathJoin(["raw", id]) + "/")
  }

  /** The check of the upload handler. */
  predicate IsSupportedAudio(filename: string) {
    var ext := Lower(Ext(TrimSpace(filename)));
    ext == ".mp3" || ext == ".flac" || ext == ".wav"
  }

  predicate HexDigit(c: char) {
    '0' <= c <= '9' || 'a' <= c <= 'f'
  }

  /** 16 random bytes in hexadecimal. */
  predicate IsObjectId(s: string) {
    |s| == 32 && forall i | 0 <= i < |s| :: HexDigit(s[i])
  }

  // ---------------------------------------------------------------- extensions

  /** The string ends in `ending`, in upper or lower case. */
  predicate EndsIn(s: string, ending: string) {
    |s| >= |ending| && Lower(s[|s| - |ending|..]) == ending
  }

  /** The lower-case extension of a name is `ending` exactly if the name ends in it. */
  lemma ExtensionIff(name: string, ending: string)
    requires ending != "" && ending[0] == '.' && Undotted(ending[1..])
    ensures Lower(Ext(name)) == ending <==> EndsIn(name, ending)
  {
    ExtExact(name);
    if EndsIn(name, ending) {
      var k := |name| - |ending|;
      var stem, e := name[..k], name[k..];
      EndingUnfolds(e, ending);
      ExtOfEnding(stem, e[1..]);
      assert name == stem + "." + e[1..] && e == "." + e[1..];
    }
  }

  /** Lower-casing moves neither dots nor slashes. */
  lemma EndingUnfolds(e: string, ending: string)
    requires ending != "" && ending[0] == '.' && Undotted(ending[1..]) && Lower(e) == ending
    ensures e != "" && e[0] == '.' && Undotted(e[1..])
  {
    LowerAt(e, 0);
    forall i | 0 <= i < |e| - 1 ensures e[1..][i] != '.' && e[1..][i] != '/' {
      LowerAt(e, i + 1);
      assert ending[1..][i] == LowerChar(e[i + 1]);
    }
  }

  /** The upload handler accepts exactly the names that end, but for space, in .mp3, .flac or .wav in any case. */
  lemma SupportedIff(filename: string)
    ensures IsSupportedAudio(filename) <==>
              var name := TrimSpace(filename); EndsIn(name, ".mp3") || EndsIn(name, ".flac") || EndsIn(name, ".wav")
  {
    hide TrimSpace, Ext, Lower, EndsIn;
    var name := TrimSpace(filename);
    ExtensionIff(name, ".mp3");
    ExtensionIff(name, ".flac");
    ExtensionIff(name, ".wav");
  }

  /** Originals can have three more extensions. */
  lemma AudioIff(filename: string)
    ensures AudioExtension(KeyExtension(filename)) <==>
              || IsSupportedAudio(filename)
              || var name := TrimSpace(filename); EndsIn(name, ".aac") || EndsIn(name, ".m4a") || EndsIn(name, ".ogg")
  {
    hide TrimSpace, Ext, EndsIn;
    var name := TrimSpace(filename);
    ExtensionIff(name, ".aac");
    ExtensionIff(name, ".m4a");
    ExtensionIff(name, ".ogg");
  }

  // ---------------------------------------------------------------- segments

  /** What a segment looks like: allowed characters only, not empty, and no path step. */
  predicate ValidSegment(s: string) {
    Plain(s) && AllAllowed(s)
  }

  lemma {:induction false} TrimAllowed(s: string)
    requires AllAllowed(s)
    ensures TrimSpace(s) == s
  {
  }

  lemma JoinHasSlash(parts: seq<string>)
    requires |parts| > 1
    ensures !SlashFree(Join(parts))
  {
    assert Join(parts)[|parts[0]|] == '/';
  }

  /** A normalised segment is never empty, a path step, or more than one segment. */
  lemma NormalizedIsValid(value: string)
    requires NormalizeSegment(value).Success?
    ensures ValidSegment(NormalizeSegment(value).value)
  {
    var trimmed := TrimSpace(value);
    SplitPartsSlashFree(trimmed);
    ResolvedArePlain(Split(trimmed), []);
    var parts := Resolve(true, Split(trimmed), []);
    if |parts| > 1 {
      JoinHasSlash(parts);
    }
    assert parts != [] && Join(parts) == parts[0];
  }

  /** A value normalises exactly if a single valid segment is left of it, trimmed and cleaned below the root, and then
      to that segment; the error tells a disallowed character from anything else. */
  lemma NormalizeExact(value: string)
    ensures var v := CleanBelowRoot(TrimSpace(value));
            && (NormalizeSegment(value).Success? <==> ValidSegment(v))
            && (ValidSegment(v) ==> NormalizeSegment(value).value == v)
            && (NormalizeSegment(value) == Failure(DisallowedCharacter) <==> Plain(v) && !AllAllowed(v))
            && (NormalizeSegment(value).Failure? && !Plain(v) ==> NormalizeSegment(value).error == InvalidSegment)
  {
    CleanedIsNoStep(TrimSpace(value));
    hide TrimSpace, CleanBelowRoot;
  }

  lemma CleanedIsNoStep(v: string)
    ensures CleanBelowRoot(v) != ".."
  {
    SplitPartsSlashFree(v);
    ResolvedArePlain(Split(v), []);
    var parts := Resolve(true, Split(v), []);
    if |parts| > 1 {
      JoinHasSlash(parts);
    } else if |parts| == 1 {
      assert Plain(parts[0]);
    }
  }

  /** The segments that normalisation leaves as they are are exactly the valid ones. */
  lemma FixedIffValid(s: string)
    ensures NormalizeSegment(s) == Success(s) <==> ValidSegment(s)
  {
    if NormalizeSegment(s) == Success(s) {
      NormalizedIsValid(s);
    }
    if ValidSegment(s) {
      TrimAllowed(s);
      assert Join([s]) == s;
      CleanPlain([s]);
    }
  }

  /** Normalising a normalised segment changes nothing. */
  lemma NormalizeIdempotent(value: string)
    requires NormalizeSegment(value).Success?
    ensures NormalizeSegment(NormalizeSegment(value).value) == NormalizeSegment(value)
  {
    NormalizedIsValid(value);
    FixedIffValid(NormalizeSegment(value).value);
  }

  // ---------------------------------------------------------------- original keys

  function RawName(id: string, ext: string): string {
    "raw/" + id + "/original" + ext
  }

  lemma BlankHasNoExtension(filename: string)
    ensures TrimSpace(filename) == "" ==> KeyExtension(filename) == ".bin"
  {
  }

  /** A bad id is reported before a blank name, and a blank name before an unsupported extension; a name without one
      counts as .bin. */
  lemma OriginalKeyError(trackId: string, filename: string)
    requires OriginalKey(trackId, filename).Failure?
    ensures OriginalKey(trackId, filename).error
            == if NormalizeSegment(trackId).Failure? then NormalizeSegment(trackId).error
               else if AllSpace(filename) then InvalidFilename
               else UnsupportedExtension(if Ext(TrimSpace(filename)) == "" then ".bin"
                                         else Lower(Ext(TrimSpace(filename))))
  {
    TrimmedAwayIff(filename);
    EmptyLower(Ext(TrimSpace(filename)));
    hide NormalizeSegment, TrimSpace, PathJoin;
  }

  lemma EmptyLower(s: string)
    ensures Lower(s) == "" <==> s == ""
  {
  }

  /** A key is exactly raw/{id}/original{ext}, and there is one whenever id and extension are acceptable. */
  lemma OriginalKeyExact(trackId: string, filename: string)
    ensures OriginalKey(trackId, filename).Success? <==>
              NormalizeSegment(trackId).Success? && AudioExtension(KeyExtension(filename))
    ensures OriginalKey(trackId, filename).Success? ==>
              OriginalKey(trackId, filename).value
              == "raw/" + NormalizeSegment(trackId).value + "/original" + KeyExtension(filename)
  {
    BlankHasNoExtension(filename);
    hide NormalizeSegment, KeyExtension, TrimSpace, PathJoin;
    var ext := KeyExtension(filename);
    if NormalizeSegment(trackId).Success? && AudioExtension(ext) {
      var id := NormalizeSegment(trackId).value;
      NormalizedIsValid(trackId);
      var parts := ["raw", id, "original" + ext];
      PathJoinPlain(parts);
      KeyJoins(id, ext);
    }
  }

  lemma KeyJoins(id: string, ext: string)
    ensures Join(["raw", id, "original" + ext]) == "raw/" + id + "/original" + ext
  {
    JoinThree("raw", id, "original" + ext);
    assert "raw" + "/" + id + "/" + ("original" + ext) == "raw/" + id + "/original" + ext;
  }

  lemma JoinThree(a: string, b: string, c: string)
    ensures Join([a, b, c]) == a + "/" + b + "/" + c
  {
    assert [a, b, c][1..] == [b, c] && [b, c][1..] == [c];
    assert Join([b, c]) == b + "/" + c;
    assert a + "/" + (b + "/" + c) == a + "/" + b + "/" + c;
  }

  /** Splitting a key gives back what it was built from. */
  lemma KeyParts(id: string, last: string)
    requires SlashFree(id) && SlashFree(last)
    ensures Split("raw/" + id + "/" + last) == ["raw", id, last]
  {
    JoinThree("raw", id, last);
    SplitJoin(["raw", id, last]);
    assert "raw" + "/" + id + "/" + last == "raw/" + id + "/" + last;
  }

  lemma RawNameInjective(i: string, e: string, j: string, h: string)
    requires SlashFree(i) && SlashFree(e) && SlashFree(j) && SlashFree(h)
    ensures RawName(i, e) == RawName(j, h) <==> i == j && e == h
  {
    assert RawName(i, e) == "raw/" + i + "/" + ("original" + e);
    assert RawName(j, h) == "raw/" + j + "/" + ("original" + h);
    KeyParts(i, "original" + e);
    KeyParts(j, "original" + h);
    if RawName(i, e) == RawName(j, h) {
      assert ["raw", i, "original" + e][1] == i && ["raw", j, "original" + h][1] == j;
      assert ("original" + e)[8..] == e && ("original" + h)[8..] == h;
    }
  }

  lemma KeyExtensionSlashFree(filename: string)
    ensures SlashFree(KeyExtension(filename))
  {
    ExtSlashFree(TrimSpace(filename));
    LowerSlashFree(Ext(TrimSpace(filename)));
  }

  /** Two keys are equal exactly if they were built from the same normalised id and lower-case extension. */
  lemma OriginalKeyInjective(t: string, f: string, u: string, g: string)
    requires OriginalKey(t, f).Success? && OriginalKey(u, g).Success?
    ensures OriginalKey(t, f) == OriginalKey(u, g) <==>
              NormalizeSegment(t) == NormalizeSegment(u) && KeyExtension(f) == KeyExtension(g)
  {
    hide OriginalKey, NormalizeSegment, KeyExtension;
    OriginalKeyExact(t, f);
    OriginalKeyExact(u, g);
    NormalizedIsValid(t);
    NormalizedIsValid(u);
    KeyExtensionSlashFree(f);
    KeyExtensionSlashFree(g);
    RawNameInjective(NormalizeSegment(t).value, KeyExtension(f), NormalizeSegment(u).value, KeyExtension(g));
  }

  /** The keys it builds pass the check that guards reads and deletes. */
  lemma OriginalKeyIsValid(trackId: string, filename: string)
    requires OriginalKey(trackId, filename).Success?
    ensures ValidKey(OriginalKey(trackId, filename).value)
  {
    OriginalKeyExact(trackId, filename);
    NormalizedIsValid(trackId);
    hide OriginalKey, NormalizeSegment, KeyExtension, TrimSpace, Clean, CleanBelowRoot, Join;
    var id, ext := NormalizeSegment(trackId).value, KeyExtension(filename);
    var parts := ["raw", id, "original" + ext];
    KeyJoins(id, ext);
    var key := OriginalKey(trackId, filename).value;
    assert key[0] == 'r';
    CleanPlain(parts);
    TrimKeepsInk(key);
  }

  /** A key is refused exactly if nothing but space or a dot is left of it below the root. */
  lemma ValidKeyIff(key: string)
    ensures ValidKey(key) <==> !AllSpace(CleanBelowRoot(key)) && TrimSpace(CleanBelowRoot(key)) != "."
    ensures ValidKey("/" + key) <==> ValidKey(key)
    ensures ValidKey(key) ==> key != ""
  {
    TrimmedAwayIff(CleanBelowRoot(key));
    CleanSlashed(key);
    hide TrimSpace, CleanBelowRoot;
  }

  lemma CleanSlashed(key: string)
    ensures CleanBelowRoot("/" + key) == CleanBelowRoot(key) && CleanBelowRoot("") == ""
  {
    SplitFirst("", key);
    assert "" + "/" + key == "/" + key;
    ResolveConcat(true, [""], Split(key), []);
    assert [""][1..] == [];
  }

  lemma {:induction false} TrimRightKeepsInk(s: string)
    requires s != "" && !IsSpace(s[0])
    ensures TrimRight(s) != "" && TrimRight(s)[0] == s[0]
  {
    if IsSpace(s[|s| - 1]) {
      TrimRightKeepsInk(s[..|s| - 1]);
    }
  }

  lemma TrimKeepsInk(s: string)
    requires s != "" && !IsSpace(s[0])
    ensures TrimSpace(s) != "" && TrimSpace(s)[0] == s[0]
  {
    TrimRightKeepsInk(s);
  }

  /** Every file the upload handler accepts has a key under every object id it can draw. */
  lemma AcceptedUploadHasKey(objectId: string, filename: string)
    requires IsSupportedAudio(filename) && IsObjectId(objectId)
    ensures OriginalKey(objectId, filename)
            == Success(RawName(objectId, Lower(Ext(TrimSpace(filename)))))
  {
    assert objectId[0] != '.';
    assert forall i | 0 <= i < |objectId| :: HexDigit(objectId[i]) && AllowedChar(objectId[i]);
    FixedIffValid(objectId);
    OriginalKeyExact(objectId, filename);
  }

  // ---------------------------------------------------------------- listings

  /** The listing of a track contains exactly the keys whose id normalises to the same segment. */
  lemma ListingExact(t: string, f: string, u: string)
    requires OriginalKey(t, f).Success? && ListPrefix(u).Success?
    ensures ListPrefix(u).value <= OriginalKey(t, f).value <==> NormalizeSegment(t) == NormalizeSegment(u)
  {
    hide OriginalKey, NormalizeSegment, KeyExtension, PathJoin, ListPrefix;
    OriginalKeyExact(t, f);
    ListPrefixExact(u);
    NormalizedIsValid(t);
    NormalizedIsValid(u);
    KeyExtensionSlashFree(f);
    var i, j, ext := NormalizeSegment(t).value, NormalizeSegment(u).value, KeyExtension(f);
    assert RawName(i, ext) == "raw/" + i + "/" + ("original" + ext);
    PrefixIffFirst(i, j, "original" + ext);
  }

  lemma ListPrefixExact(trackId: string)
    requires ListPrefix(trackId).Success?
    ensures NormalizeSegment(trackId).Success?
    ensures ListPrefix(trackId).value == "raw/" + NormalizeSegment(trackId).value + "/"
  {
    hide NormalizeSegment, PathJoin;
    NormalizedIsValid(trackId);
    var id := NormalizeSegment(trackId).value;
    PathJoinPlain(["raw", id]);
    assert ["raw", id][1..] == [id];
  }

  lemma SecondPart(j: string, rest: string)
    requires SlashFree(j)
    ensures |Split("raw/" + j + "/" + rest)| > 1 && Split("raw/" + j + "/" + rest)[1] == j
  {
    SplitFirst(j, rest);
    SplitFirst("raw", j + "/" + rest);
    assert "raw" + "/" + (j + "/" + rest) == "raw/" + j + "/" + rest;
  }

  lemma PrefixIffFirst(i: string, j: string, last: string)
    requires SlashFree(i) && SlashFree(j) && SlashFree(last)
    ensures "raw/" + j + "/" <= "raw/" + i + "/" + last <==> i == j
  {
    var prefix, key := "raw/" + j + "/", "raw/" + i + "/" + last;
    if prefix <= key {
      var rest := key[|prefix|..];
      SecondPart(j, rest);
      assert "raw/" + j + "/" + rest == key;
      KeyParts(i, last);
      hide Split;
    }
  }
}
