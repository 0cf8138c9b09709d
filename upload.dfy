/**
 * The image upload rules: which files the filter accepts, the name a stored
 * file gets, and the per-file size and per-request count limits. The storage
 * back end and the clock are left to the caller.
 */
module Upload {
  import opened Wrappers
  import opened Text
  import Seqs

  const MaxFileSize: nat := 5 * 1024 * 1024
  const MaxFiles: nat := 6
  const ImagesField: string := "images"
  const RejectMessage: string := "Only images allowed! (jpeg, jpg, png, webp)"

  /** The last position of c in s. */
  function LastIndexOfChar(s: string, c: char): (r: Option<nat>)
    ensures r.None? <==> c !in s
    ensures r.Some? ==> r.value < |s| && s[r.value] == c && c !in s[r.value + 1..]
    decreases |s|
  {
    if s == [] then None
    else if s[|s| - 1] == c then Some(|s| - 1)
    else
      var r := LastIndexOfChar(s[..|s| - 1], c);
      assert r.Some? ==> s[r.value + 1..] == s[..|s| - 1][r.value + 1..] + [s[|s| - 1]];
      assert r.None? ==> s == s[..|s| - 1] + [s[|s| - 1]];
      r
  }

  /** The name with its trailing slashes removed. */
  function StripTrailingSlashes(s: string): (r: string)
    ensures |r| <= |s| && r == s[..|r|]
    ensures r == [] || r[|r| - 1] != '/'
    decreases |s|
  {
    if s != [] && s[|s| - 1] == '/' then StripTrailingSlashes(s[..|s| - 1]) else s
  }

  /** The last path component. */
  function Basename(s: string): string {
    var t := StripTrailingSlashes(s);
    match LastIndexOfChar(t, '/')
    case None => t
    case Some(i) => t[i + 1..]
  }

  /** The extension of a name without slashes: from its last dot to the end,
      except that a leading dot starts no extension and ".." has none. */
  function BaseExt(b: string): string {
    match LastIndexOfChar(b, '.')
    case None => []
    case Some(i) => if i == 0 || b == ".." then [] else b[i..]
  }

  /** `path.extname`, for POSIX paths. */
  function ExtName(name: string): (e: string)
    ensures e == [] || e[0] == '.'
  {
    BaseExt(Basename(name))
  }

  /** An extension is empty, or a dot followed by neither dots nor slashes. */
  lemma ExtNameShape(name: string)
    ensures var e := ExtName(name); e == [] || (e[0] == '.' && '.' !in e[1..] && '/' !in e)
  {
    var t := StripTrailingSlashes(name);
    var b := Basename(name);
    assert '/' !in b by {
      match LastIndexOfChar(t, '/')
      case None =>
      case Some(i) =>
    }
    match LastIndexOfChar(b, '.')
    case None =>
    case Some(i) =>
      if i != 0 && b != ".." {
        assert ExtName(name) == b[i..];
      }
  }

  /** The pattern /jpeg|jpg|png|webp/ tested against a string. */
  predicate NamesImage(s: string) {
    Contains(s, "jpeg") || Contains(s, "jpg") || Contains(s, "png") || Contains(s, "webp")
  }

  /** Lower-casing changes letters only, so it finds the same last dot or slash. */
  lemma {:induction false} LowerKeepsLastIndex(s: string, c: char)
    requires c == '.' || c == '/'
    ensures LastIndexOfChar(Lower(s), c) == LastIndexOfChar(s, c)
    decreases |s|
  {
    if s != [] {
      LowerSlice(s, 0, |s| - 1);
      LowerKeepsLastIndex(s[..|s| - 1], c);
    }
  }

  lemma {:induction false} LowerKeepsTrailingSlashes(s: string)
    ensures StripTrailingSlashes(Lower(s)) == Lower(StripTrailingSlashes(s))
    decreases |s|
  {
    if s != [] {
      LowerSlice(s, 0, |s| - 1);
      LowerKeepsTrailingSlashes(s[..|s| - 1]);
    }
  }

  /** Basename through the two steps it takes. */
  lemma BasenameSteps(s: string, t: string, j: Option<nat>)
    requires t == StripTrailingSlashes(s) && j == LastIndexOfChar(t, '/')
    ensures j.Some? ==> j.value < |t| && Basename(s) == t[j.value + 1..]
    ensures j.None? ==> Basename(s) == t
  {
  }

  lemma LowerSuffix(t: string, k: nat)
    requires k <= |t|
    ensures Lower(t)[k..] == Lower(t[k..])
  {
    LowerSlice(t, k, |t|);
    assert t[k..|t|] == t[k..];
  }

  lemma LowerBasename(name: string)
    ensures Basename(Lower(name)) == Lower(Basename(name))
  {
    var t := StripTrailingSlashes(name);
    var j := LastIndexOfChar(t, '/');
    var lt := Lower(t);
    var b := if j.Some? then lt[j.value + 1..] else lt;
    assert Basename(Lower(name)) == b by {
      LowerKeepsTrailingSlashes(name);
      LowerKeepsLastIndex(t, '/');
      BasenameSteps(Lower(name), lt, j);
    }
    assert Lower(Basename(name)) == b by {
      BasenameSteps(name, t, j);
      if j.Some? {
        LowerSuffix(t, j.value + 1);
      }
    }
  }

  lemma LowerBaseExt(b: string)
    ensures BaseExt(Lower(b)) == Lower(BaseExt(b))
  {
    LowerKeepsLastIndex(b, '.');
    match LastIndexOfChar(b, '.')
    case None =>
    case Some(i) =>
      LowerSlice(b, i, |b|);
      if Lower(b) == ".." {
        assert b[0] == '.' && b[1] == '.';
        assert b == "..";
      }
  }

  /** Taking the extension and lower-casing it, as the filter does, is the
      same as lower-casing the name and taking its extension. */
  lemma LowerExtName(name: string)
    ensures Lower(ExtName(name)) == ExtName(Lower(name))
  {
    LowerBasename(name);
    LowerBaseExt(Basename(name));
  }

  /** The file filter, computed on the extension of the lower-cased name. */
  function FileFilter(originalName: string, mimetype: string): (r: Result<(), string>)
    ensures r.Ok? ==> NamesImage(mimetype)
    ensures r.Err? ==> r.error == RejectMessage
  {
    if NamesImage(ExtName(Lower(originalName))) && NamesImage(mimetype) then Ok(()) else Err(RejectMessage)
  }

  /** A file passes exactly when its lower-cased extension and its mimetype,
      taken as sent, both name an image type; otherwise the error carries
      the fixed message. */
  lemma FileFilterAccepts(originalName: string, mimetype: string)
    ensures FileFilter(originalName, mimetype).Ok?
            <==> NamesImage(Lower(ExtName(originalName))) && NamesImage(mimetype)
    ensures FileFilter(originalName, mimetype).Err? ==> FileFilter(originalName, mimetype).error == RejectMessage
  {
    LowerExtName(originalName);
  }

  /** The stored file's name: field name, a dash, the clock reading, and the original extension. */
  function StoredName(fieldname: string, now: nat, originalName: string): (r: string)
    ensures StartsWith(r, fieldname + "-")
  {
    var r := fieldname + "-" + NatToString(now) + ExtName(originalName);
    assert r[..|fieldname + "-"|] == fieldname + "-";
    r
  }

  /** A position holding c with no c after it is the last position of c. */
  lemma LastIndexOfCharAt(s: string, c: char, i: nat)
    requires i < |s| && s[i] == c && c !in s[i + 1..]
    ensures LastIndexOfChar(s, c) == Some(i)
  {
    var j := LastIndexOfChar(s, c);
    assert s[i] in s;
  }

  /** A name without slashes is its own last component. */
  lemma BasenameOfPlainName(s: string)
    requires '/' !in s
    ensures Basename(s) == s
  {
    if s != [] {
      assert s[|s| - 1] in s;
    }
  }

  /** Behind a plain prefix without dots or slashes, a well-formed extension
      is again the extension. */
  lemma ExtNameAfterPlainPrefix(prefix: string, e: string)
    requires prefix != [] && '.' !in prefix && '/' !in prefix
    requires e == [] || (e[0] == '.' && '.' !in e[1..] && '/' !in e)
    ensures ExtName(prefix + e) == e
  {
    var r := prefix + e;
    assert '/' !in r;
    BasenameOfPlainName(r);
    if e == [] {
      assert r == prefix;
    } else {
      var i := |prefix|;
      assert r[i] == e[0];
      assert r[i + 1..] == e[1..];
      LastIndexOfCharAt(r, '.', i);
      assert r[0] != '.';
    }
  }

  /** A stored file keeps its original extension, so it is served with the
      type the filter accepted. */
  lemma StoredNameKeepsExt(fieldname: string, now: nat, originalName: string)
    requires '.' !in fieldname && '/' !in fieldname
    ensures ExtName(StoredName(fieldname, now, originalName)) == ExtName(originalName)
  {
    var e := ExtName(originalName);
    ExtNameShape(originalName);
    var digits := NatToString(now);
    assert '.' !in digits && '/' !in digits by {
      forall i | 0 <= i < |digits| ensures digits[i] != '.' && digits[i] != '/' {
        assert IsDigit(digits[i]);
      }
    }
    var prefix := fieldname + "-" + digits;
    assert '.' !in prefix && '/' !in prefix;
    ExtNameAfterPlainPrefix(prefix, e);
  }

  /** An uploaded part as the form sent it. */
  datatype FilePart = FilePart(fieldname: string, originalName: string, mimetype: string, size: nat)

  datatype UploadError = UnexpectedField | TooManyFiles | FileTooLarge | NotAnImage(message: string)

  /** The reason one part is refused, as the i-th file of the request, or None. */
  function PartError(f: FilePart, i: nat): (r: Option<UploadError>)
    ensures f.fieldname != ImagesField ==> r == Some(UnexpectedField)
    ensures f.fieldname == ImagesField && i >= MaxFiles ==> r == Some(TooManyFiles)
    ensures r.None? ==> i < MaxFiles && f.size <= MaxFileSize && FileFilter(f.originalName, f.mimetype).Ok?
  {
    if f.fieldname != ImagesField then Some(UnexpectedField)
    else if i >= MaxFiles then Some(TooManyFiles)
    else if FileFilter(f.originalName, f.mimetype).Err? then Some(NotAnImage(RejectMessage))
    else if f.size > MaxFileSize then Some(FileTooLarge)
    else None
  }

  /** A part passes exactly when it comes on the images field, is one of the
      first six, passes the file filter and is no larger than the size limit. */
  lemma PartAccepted(f: FilePart, i: nat)
    ensures PartError(f, i).None? <==>
      && f.fieldname == ImagesField && i < MaxFiles
      && NamesImage(Lower(ExtName(f.originalName))) && NamesImage(f.mimetype)
      && f.size <= MaxFileSize
  {
    FileFilterAccepts(f.originalName, f.mimetype);
  }

  predicate PartPasses(f: FilePart, i: nat) {
    PartError(f, i).None?
  }

  /** Every part from position k on passes. */
  predicate AllAccepted(parts: seq<FilePart>, k: nat)
    requires k <= |parts|
  {
    Seqs.AllFrom(parts, k, PartPasses)
  }

  /** When every part from k on passes, so does each one of them. */
  lemma AcceptedPart(parts: seq<FilePart>, k: nat, i: nat)
    requires k <= i < |parts| && AllAccepted(parts, k)
    ensures PartError(parts[i], i).None?
  {
    Seqs.AllFromAt(parts, k, PartPasses, i);
  }

  /** The name the i-th accepted part is stored under. */
  function StoredNameOf(clock: nat -> nat): (FilePart, nat) -> string {
    (f: FilePart, i: nat) => StoredName(ImagesField, clock(i), f.originalName)
  }

  /** The names the accepted parts are stored under, from position k on. */
  function NamesFrom(parts: seq<FilePart>, k: nat, clock: nat -> nat): (names: seq<string>)
    requires k <= |parts|
    ensures |names| == |parts| - k
  {
    Seqs.MapFrom(parts, k, StoredNameOf(clock))
  }

  /** `upload.array('images', 6)`: the parts are checked in order, and the
      request either fails with the first refusal or stores every part under
      its new name. */
  function AcceptParts(parts: seq<FilePart>, clock: nat -> nat): (r: Result<seq<string>, UploadError>)
    ensures r.Ok? <==> AllAccepted(parts, 0)
    ensures r.Ok? ==> |r.value| == |parts|
  {
    AcceptFrom(parts, 0, clock)
  }

  /** An accepted request has at most six files, and the i-th is stored
      under the name made from the i-th clock reading. */
  lemma AcceptedRequest(parts: seq<FilePart>, clock: nat -> nat)
    requires AcceptParts(parts, clock).Ok?
    ensures |parts| <= MaxFiles
    ensures forall i :: 0 <= i < |parts| ==>
      AcceptParts(parts, clock).value[i] == StoredName(ImagesField, clock(i), parts[i].originalName)
  {
    if parts != [] {
      AcceptedPart(parts, 0, |parts| - 1);
      PassingPartWithinLimit(parts[|parts| - 1], |parts| - 1);
    }
    forall i | 0 <= i < |parts|
      ensures AcceptParts(parts, clock).value[i] == StoredName(ImagesField, clock(i), parts[i].originalName)
    {
      AcceptedName(parts, clock, i);
    }
  }

  /** Only the first six files can pass. */
  lemma PassingPartWithinLimit(f: FilePart, i: nat)
    requires PartError(f, i).None?
    ensures i < MaxFiles
  {
  }

  lemma AcceptedName(parts: seq<FilePart>, clock: nat -> nat, i: nat)
    requires AcceptParts(parts, clock).Ok? && i < |parts|
    ensures AcceptParts(parts, clock).value[i] == StoredName(ImagesField, clock(i), parts[i].originalName)
  {
    var g := StoredNameOf(clock);
    AcceptedNames(parts, clock);
    var names := AcceptParts(parts, clock).value;
    var m := Seqs.MapFrom(parts, 0, g);
    assert names == m;
    Seqs.MapFromAt(parts, 0, g, i);
    assert m[i] == g(parts[i], i);
    StoredNameOfAt(clock, parts[i], i);
  }

  lemma AcceptedNames(parts: seq<FilePart>, clock: nat -> nat)
    requires AcceptParts(parts, clock).Ok?
    ensures AcceptParts(parts, clock).value == Seqs.MapFrom(parts, 0, StoredNameOf(clock))
  {
  }

  lemma StoredNameOfAt(clock: nat -> nat, f: FilePart, i: nat)
    ensures StoredNameOf(clock)(f, i) == StoredName(ImagesField, clock(i), f.originalName)
  {
  }

  /** A single refused part fails the whole request. */
  lemma RefusedPartFailsRequest(parts: seq<FilePart>, clock: nat -> nat, i: nat)
    requires i < |parts| && PartError(parts[i], i).Some?
    ensures AcceptParts(parts, clock).Err?
  {
    if AcceptParts(parts, clock).Ok? {
      AcceptedPart(parts, 0, i);
    }
  }

  /** A seventh file fails the request. */
  lemma TooManyFilesRefused(parts: seq<FilePart>, clock: nat -> nat)
    requires |parts| > MaxFiles
    ensures AcceptParts(parts, clock).Err?
  {
    RefusedPartFailsRequest(parts, clock, MaxFiles);
  }

  /** The first refusal from position k on, or the stored names. */
  function AcceptFrom(parts: seq<FilePart>, k: nat, clock: nat -> nat): (r: Result<seq<string>, UploadError>)
    requires k <= |parts|
    ensures r.Ok? <==> AllAccepted(parts, k)
    ensures r.Ok? ==> r.value == NamesFrom(parts, k, clock)
    decreases |parts| - k
  {
    if k == |parts| then Ok([])
    else match PartError(parts[k], k)
      case Some(e) => Err(e)
      case None =>
        match AcceptFrom(parts, k + 1, clock)
        case Err(e) => Err(e)
        case Ok(names) => Ok([StoredNameOf(clock)(parts[k], k)] + names)
  }
}
