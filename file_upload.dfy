/**
 * The file picker's validation (size limit, then extension allow-list), the
 * icon chosen for a file name and the truncated display name.
 */
module FileUpload {
  import opened JsText

  const MAX_FILE_SIZE: nat := 10 * 1024 * 1024

  const ALLOWED_FILE_TYPES: seq<string> :=
    [".pdf", ".txt", ".doc", ".docx", ".csv", ".rtf", ".md",
     ".jpg", ".jpeg", ".png", ".gif", ".webp", ".bmp", ".svg"]

  const TYPE_ERROR_PREFIX := "File type not supported. Allowed types: "

  const PDF_ICON := "\U{1F4C4}"
  const DOCUMENT_ICON := "\U{1F4DD}"
  const TEXT_ICON := "\U{1F4C3}"
  const SHEET_ICON := "\U{1F4CA}"
  const IMAGE_ICON := "\U{1F5BC}\U{FE0F}"
  const GENERIC_ICON := "\U{1F4CE}"

  /** The part of a selected `File` that validation reads. */
  datatype FileInfo = FileInfo(name: string, size: nat)

  datatype UploadError = TooLarge(size: nat) | UnsupportedType(message: string)

  /** Which callback `handleFileChange` fired, with its argument. */
  datatype Callback = NoCallback | OnError(error: UploadError) | OnFileUpload(file: FileInfo)

  /** `'.' + name.split('.').pop().toLowerCase()`. */
  function FileExtension(name: string): (r: string)
    ensures |r| == |AfterLast(name, '.')| + 1
    ensures r[0] == '.' && '.' !in r[1..]
  {
    var lower := ToLowerAscii(AfterLast(name, '.'));
    LowerKeepsDotless(AfterLast(name, '.'));
    assert ("." + lower)[1..] == lower;
    "." + lower
  }

  /** Lower-casing a dot-free text gives a dot-free text. */
  lemma LowerKeepsDotless(s: string)
    requires '.' !in s
    ensures '.' !in ToLowerAscii(s)
  {
    forall i | 0 <= i < |s| ensures ToLowerAscii(s)[i] != '.' {
      assert s[i] != '.';
    }
  }

  predicate IsAllowedType(name: string) {
    FileExtension(name) in ALLOWED_FILE_TYPES
  }

  /** A name `base.ext` has extension `.ext` in lower case, whatever `base` holds. */
  lemma ExtensionOfDottedName(base: string, ext: string)
    requires '.' !in ext
    ensures FileExtension(base + "." + ext) == "." + ToLowerAscii(ext)
  {
    AfterLastOfSplit(base, '.', ext);
  }

  /** A name without a dot is its own extension. */
  lemma ExtensionOfUndottedName(name: string)
    requires '.' !in name
    ensures FileExtension(name) == "." + ToLowerAscii(name)
  {
    AfterLastWithout(name, '.');
  }

  /** Lower-casing keeps every dot where it is, so it commutes with taking the text after the last dot. */
  lemma AfterLastLower(s: string)
    ensures AfterLast(ToLowerAscii(s), '.') == ToLowerAscii(AfterLast(s, '.'))
  {
    var lower := ToLowerAscii(s);
    var r := AfterLast(s, '.');
    var k := |r|;
    assert ToLowerAscii(r) == lower[|s| - k..];
    assert '.' !in lower[|s| - k..] by {
      forall i | |s| - k <= i < |s| ensures lower[i] != '.' {
        assert r[i - (|s| - k)] == s[i];
      }
    }
    AfterLastUnique(lower, '.', k);
  }

  lemma LowerIdempotent(s: string)
    ensures ToLowerAscii(ToLowerAscii(s)) == ToLowerAscii(s)
  {
  }

  /** The type check does not depend on the case of the name. */
  lemma TypeCheckIgnoresCase(name: string)
    ensures IsAllowedType(ToLowerAscii(name)) == IsAllowedType(name)
    ensures FileExtension(ToLowerAscii(name)) == FileExtension(name)
  {
    AfterLastLower(name);
    LowerIdempotent(AfterLast(name, '.'));
  }

  function TypeErrorMessage(): string {
    TYPE_ERROR_PREFIX + Join(ALLOWED_FILE_TYPES, ", ")
  }

  /**
   * `handleFileChange`: nothing without a file; otherwise exactly one
   * callback for the first file: the size error first, then the type error,
   * and the upload only for a file that passes both checks.
   */
  method HandleFileChange(files: seq<FileInfo>) returns (fired: Callback)
    ensures fired == NoCallback <==> |files| == 0
    ensures fired.OnFileUpload? <==>
      |files| > 0 && files[0].size <= MAX_FILE_SIZE && IsAllowedType(files[0].name)
    ensures fired.OnFileUpload? ==> fired.file == files[0]
    ensures |files| > 0 && files[0].size > MAX_FILE_SIZE ==> fired == OnError(TooLarge(files[0].size))
    ensures |files| > 0 && files[0].size <= MAX_FILE_SIZE && !IsAllowedType(files[0].name) ==>
      fired == OnError(UnsupportedType(TypeErrorMessage()))
  {
    fired := NoCallback;
    if |files| > 0 {
      var file := files[0];
      if file.size > MAX_FILE_SIZE {
        fired := OnError(TooLarge(file.size));
        return;
      }
      var fileExtension := FileExtension(file.name);
      if fileExtension !in ALLOWED_FILE_TYPES {
        fired := OnError(UnsupportedType(TypeErrorMessage()));
        return;
      }
      fired := OnFileUpload(file);
    }
  }

  /**
   * `getFileIcon`: the icon for the lower-cased text after the last dot,
   * always one of the six icons; `IconByExtension` says which.
   */
  function FileIcon(fileName: string): (icon: string)
    ensures icon in [PDF_ICON, DOCUMENT_ICON, TEXT_ICON, SHEET_ICON, IMAGE_ICON, GENERIC_ICON]
  {
    IconFor(ToLowerAscii(AfterLast(fileName, '.')))
  }

  /** The `switch` of `getFileIcon` on the lower-cased extension. */
  function IconFor(extension: string): string {
    if extension == "pdf" then PDF_ICON
    else if extension == "doc" || extension == "docx" then DOCUMENT_ICON
    else if extension == "txt" || extension == "md" || extension == "rtf" then TEXT_ICON
    else if extension == "csv" then SHEET_ICON
    else if extension in ["jpg", "jpeg", "png", "gif", "webp", "bmp", "svg"] then IMAGE_ICON
    else GENERIC_ICON
  }

  /** Each icon is given for exactly its own extensions, compared as the type check compares them. */
  lemma IconByExtension(fileName: string)
    ensures var e := FileExtension(fileName);
            var icon := FileIcon(fileName);
            && (icon == PDF_ICON <==> e == ".pdf")
            && (icon == DOCUMENT_ICON <==> e == ".doc" || e == ".docx")
            && (icon == TEXT_ICON <==> e == ".txt" || e == ".md" || e == ".rtf")
            && (icon == SHEET_ICON <==> e == ".csv")
            && (icon == IMAGE_ICON <==> e in [".jpg", ".jpeg", ".png", ".gif", ".webp", ".bmp", ".svg"])
  {
    IconOfDotted(ToLowerAscii(AfterLast(fileName, '.')));
  }

  /** `IconByExtension` for the lower-cased text `x` after the last dot. */
  lemma IconOfDotted(x: string)
    ensures var e := "." + x;
            var icon := IconFor(x);
            && (icon == PDF_ICON <==> e == ".pdf")
            && (icon == DOCUMENT_ICON <==> e == ".doc" || e == ".docx")
            && (icon == TEXT_ICON <==> e == ".txt" || e == ".md" || e == ".rtf")
            && (icon == SHEET_ICON <==> e == ".csv")
            && (icon == IMAGE_ICON <==> e in [".jpg", ".jpeg", ".png", ".gif", ".webp", ".bmp", ".svg"])
  {
    IconsDiffer(x);
    DottedIs(x, "pdf", ".pdf");
    DottedIs(x, "doc", ".doc");
    DottedIs(x, "docx", ".docx");
    DottedIs(x, "txt", ".txt");
    DottedIs(x, "md", ".md");
    DottedIs(x, "rtf", ".rtf");
    DottedIs(x, "csv", ".csv");
    DottedIs(x, "jpg", ".jpg");
    DottedIs(x, "jpeg", ".jpeg");
    DottedIs(x, "png", ".png");
    DottedIs(x, "gif", ".gif");
    DottedIs(x, "webp", ".webp");
    DottedIs(x, "bmp", ".bmp");
    DottedIs(x, "svg", ".svg");
  }

  /** Comparing dotted extensions compares what follows the dot. */
  lemma DottedIs(x: string, ext: string, dotted: string)
    requires dotted == "." + ext
    ensures "." + x == dotted <==> x == ext
  {
    DotPrefixCancels(x, ext);
  }

  /** The icons are told apart, so each is given for its own cases only. */
  lemma IconsDiffer(x: string)
    ensures var icon := IconFor(x);
            && (icon == PDF_ICON <==> x == "pdf")
            && (icon == DOCUMENT_ICON <==> x == "doc" || x == "docx")
            && (icon == TEXT_ICON <==> x == "txt" || x == "md" || x == "rtf")
            && (icon == SHEET_ICON <==> x == "csv")
            && (icon == IMAGE_ICON <==> x in ["jpg", "jpeg", "png", "gif", "webp", "bmp", "svg"])
  {
    assert PDF_ICON != DOCUMENT_ICON && PDF_ICON != TEXT_ICON && PDF_ICON != SHEET_ICON;
    assert DOCUMENT_ICON != TEXT_ICON && DOCUMENT_ICON != SHEET_ICON && TEXT_ICON != SHEET_ICON;
    assert IMAGE_ICON != PDF_ICON && IMAGE_ICON != DOCUMENT_ICON;
    assert IMAGE_ICON != TEXT_ICON && IMAGE_ICON != SHEET_ICON;
    assert GENERIC_ICON != PDF_ICON && GENERIC_ICON != DOCUMENT_ICON && GENERIC_ICON != TEXT_ICON;
    assert GENERIC_ICON != SHEET_ICON && GENERIC_ICON != IMAGE_ICON;
  }

  /**
   * The icon cases are exactly the allowed types: a file gets the generic
   * paperclip iff the type check would refuse it.
   */
  lemma IconIsGenericIffTypeRefused(fileName: string)
    ensures FileIcon(fileName) == GENERIC_ICON <==> !IsAllowedType(fileName)
  {
    var extension := ToLowerAscii(AfterLast(fileName, '.'));
    var cases := ["pdf", "txt", "doc", "docx", "csv", "rtf", "md",
                  "jpg", "jpeg", "png", "gif", "webp", "bmp", "svg"];
    AllowedTypesAreDotted(cases);
    forall i | 0 <= i < |cases| ensures ("." + extension == "." + cases[i]) <==> extension == cases[i] {
      DotPrefixCancels(extension, cases[i]);
    }
    assert IsAllowedType(fileName) <==> extension in cases;
    assert GENERIC_ICON != PDF_ICON && GENERIC_ICON != DOCUMENT_ICON && GENERIC_ICON != TEXT_ICON;
    assert GENERIC_ICON != SHEET_ICON && GENERIC_ICON != IMAGE_ICON;
  }

  lemma AllowedTypesAreDotted(cases: seq<string>)
    requires cases == ["pdf", "txt", "doc", "docx", "csv", "rtf", "md",
                       "jpg", "jpeg", "png", "gif", "webp", "bmp", "svg"]
    ensures |ALLOWED_FILE_TYPES| == |cases|
    ensures forall i :: 0 <= i < |cases| ==> ALLOWED_FILE_TYPES[i] == "." + cases[i]
  {
    assert ALLOWED_FILE_TYPES[0] == "." + "pdf";
    assert ALLOWED_FILE_TYPES[1] == "." + "txt";
    assert ALLOWED_FILE_TYPES[2] == "." + "doc";
    assert ALLOWED_FILE_TYPES[3] == "." + "docx";
    assert ALLOWED_FILE_TYPES[4] == "." + "csv";
    assert ALLOWED_FILE_TYPES[5] == "." + "rtf";
    assert ALLOWED_FILE_TYPES[6] == "." + "md";
    assert ALLOWED_FILE_TYPES[7] == "." + "jpg";
    assert ALLOWED_FILE_TYPES[8] == "." + "jpeg";
    assert ALLOWED_FILE_TYPES[9] == "." + "png";
    assert ALLOWED_FILE_TYPES[10] == "." + "gif";
    assert ALLOWED_FILE_TYPES[11] == "." + "webp";
    assert ALLOWED_FILE_TYPES[12] == "." + "bmp";
    assert ALLOWED_FILE_TYPES[13] == "." + "svg";
  }

  lemma DotPrefixCancels(a: string, b: string)
    ensures "." + a == "." + b <==> a == b
  {
    if "." + a == "." + b {
      assert a == ("." + a)[1..];
      assert b == ("." + b)[1..];
    }
  }

  /** The name shown for an attached file: unchanged up to 15 characters, else 12 characters and `...`. */
  function DisplayName(name: string): (shown: string)
    ensures |name| <= 15 ==> shown == name
    ensures |name| > 15 ==> |shown| == 15 && shown[..12] == name[..12] && shown[12..] == "..."
  {
    if |name| > 15 then name[..12] + "..." else name
  }
}
