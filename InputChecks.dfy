/** The two gatekeepers before analysis: the uploaded file (type and size)
    and the extracted text (length and how much of it is words). Each
    reports the first check that fails, or nothing when all pass. */
module InputChecks {
  import opened PyText

  // ---------------------------------------------------------------------
  // The uploaded file

  /** What the upload widget reports about a file. */
  datatype UploadedFile = UploadedFile(name: string, mimeType: string, size: nat)

  const AllowedTypes: seq<string> := ["application/pdf", "text/plain"]
  const MaxFileSize: nat := 10 * 1024 * 1024

  datatype FileError = NoFile | UnsupportedType(mimeType: string) | TooLarge(size: nat) | EmptyFile

  /** Round `n / d` to the nearest integer, ties to even, as Python's
      `format` does for a value it holds exactly. */
  function RoundHalfEven(n: nat, d: nat): (q: nat)
    requires d > 0
    ensures 2 * (q * d - n) <= d && 2 * (n - q * d) <= d
    ensures 2 * (n % d) == d ==> q % 2 == 0 && (q == n / d || q == n / d + 1)
  {
    var q := n / d;
    var rem := n % d;
    assert n == q * d + rem;
    assert (q + 1) * d == q * d + d;
    if 2 * rem > d then q + 1
    else if 2 * rem < d then q
    else if q % 2 == 0 then q
    else q + 1
  }

  /** `f"{size / 1024 / 1024:.1f}"`: the size in mebibytes to one decimal.
      Both divisions are exact in a double for any realistic size, so the
      text is the exact quotient rounded to tenths. */
  function MegabytesText(size: nat): string {
    var tenths := RoundHalfEven(size * 10, 1024 * 1024);
    NatToString(tenths / 10) + "." + [Digit(tenths % 10)]
  }

  function FileMessage(e: FileError): string {
    match e
    case NoFile => "Nenhum arquivo selecionado"
    case UnsupportedType(t) => "Tipo de arquivo não suportado: " + t
    case TooLarge(size) => "Arquivo muito grande: " + MegabytesText(size) + "MB (máx: 10MB)"
    case EmptyFile => "Arquivo está vazio"
  }

  /** `validate_file`: no file, then the type, then the size limit, then
      the empty file. */
  function ValidateFile(file: Option<UploadedFile>): (r: Option<FileError>)
    ensures r.None? <==> file.Some? && file.value.mimeType in AllowedTypes && 0 < file.value.size <= MaxFileSize
    ensures r == Some(NoFile) <==> file.None?
    ensures r.Some? && r.value.UnsupportedType? <==> file.Some? && file.value.mimeType !in AllowedTypes
    ensures r.Some? && r.value.TooLarge? <==>
      file.Some? && file.value.mimeType in AllowedTypes && file.value.size > MaxFileSize
    ensures r == Some(EmptyFile) <==> file.Some? && file.value.mimeType in AllowedTypes && file.value.size == 0
    ensures r.Some? && r.value.UnsupportedType? ==> r.value.mimeType == file.value.mimeType
    ensures r.Some? && r.value.TooLarge? ==> r.value.size == file.value.size
  {
    match file
    case None => Some(NoFile)
    case Some(f) =>
      if f.mimeType !in AllowedTypes then Some(UnsupportedType(f.mimeType))
      else if f.size > MaxFileSize then Some(TooLarge(f.size))
      else if f.size == 0 then Some(EmptyFile)
      else None
  }

  /** The `(is_valid, error_message)` pair. */
  function FileVerdict(file: Option<UploadedFile>): (bool, string) {
    match ValidateFile(file)
    case None => (true, "")
    case Some(e) => (false, FileMessage(e))
  }

  /** One byte over the limit is reported as "10.0MB". */
  lemma JustOverLimitMessage()
    ensures MegabytesText(MaxFileSize + 1) == "10.0"
  {
    assert RoundHalfEven((MaxFileSize + 1) * 10, 1024 * 1024) == 100;
    assert NatToString(10) == "10" by {
      assert NatToString(1) == "1";
    }
  }

  /** A size of exactly 10.25 MB is a tie, which goes to the even tenth:
      the message says "10.2MB". */
  lemma TieMessage()
    ensures MegabytesText(41 * 262144) == "10.2"
  {
    assert RoundHalfEven(41 * 262144 * 10, 1024 * 1024) == 102;
    assert NatToString(10) == "10" by {
      assert NatToString(1) == "1";
    }
  }

  // ---------------------------------------------------------------------
  // The extracted text

  const MinContentLength: nat := 50
  const MaxContentLength: nat := 50000
  const MinWordTextLength: nat := 30

  /** `\w` for a `str` pattern: letters, digits and the underscore, over
      ASCII, Latin-1 and the Latin Extended-A and -B blocks. */
  predicate IsWordChar(c: char) {
    || 'a' <= c <= 'z' || 'A' <= c <= 'Z' || '0' <= c <= '9' || c == '_'
    || c == '\U{AA}' || c == '\U{B2}' || c == '\U{B3}' || c == '\U{B5}' || c == '\U{B9}' || c == '\U{BA}'
    || '\U{BC}' <= c <= '\U{BE}'
    || '\U{C0}' <= c <= '\U{D6}' || '\U{D8}' <= c <= '\U{F6}' || '\U{F8}' <= c <= '\U{24F}'
  }

  predicate IsWordOrSpace(c: char) {
    IsWordChar(c) || IsSpace(c)
  }

  /** `re.sub(r'[^\w\s]', '', content)`: only word and space characters. */
  function WordAndSpace(content: string): string {
    Keep(content, IsWordOrSpace)
  }

  datatype ContentError = Empty | TooShort | TooLong | InsufficientText

  function ContentMessage(e: ContentError): string {
    match e
    case Empty => "Conteúdo vazio"
    case TooShort => "Conteúdo muito curto para análise (mínimo: 50 caracteres)"
    case TooLong => "Conteúdo muito longo (máximo: 50.000 caracteres)"
    case InsufficientText => "Conteúdo não contém texto suficiente para análise"
  }

  /** `validate_content`. The length limit applies to the text as given,
      surrounding whitespace included; the minimum to the trimmed text. */
  function ValidateContent(content: string): (r: Option<ContentError>)
    ensures r.None? <==>
      && |Strip(content)| >= MinContentLength && |content| <= MaxContentLength
      && |Strip(WordAndSpace(content))| >= MinWordTextLength
    ensures r == Some(Empty) <==> AllSpace(content)
    ensures r == Some(TooShort) <==> 0 < |Strip(content)| < MinContentLength
    ensures r == Some(TooLong) <==> |Strip(content)| >= MinContentLength && |content| > MaxContentLength
    ensures r == Some(InsufficientText) <==>
      && |Strip(content)| >= MinContentLength && |content| <= MaxContentLength
      && |Strip(WordAndSpace(content))| < MinWordTextLength
  {
    StripEmptyIffAllSpace(content);
    if content == [] || Strip(content) == [] then Some(Empty)
    else if |Strip(content)| < MinContentLength then Some(TooShort)
    else if |content| > MaxContentLength then Some(TooLong)
    else if |Strip(WordAndSpace(content))| < MinWordTextLength then Some(InsufficientText)
    else None
  }

  function ContentVerdict(content: string): (bool, string) {
    match ValidateContent(content)
    case None => (true, "")
    case Some(e) => (false, ContentMessage(e))
  }

  /** A run of `n` letters: accepted from 50 up to 50000 letters. */
  lemma LetterRunVerdict(n: nat)
    ensures ValidateContent(Repeat('a', n)) == (
      if n == 0 then Some(Empty)
      else if n < MinContentLength then Some(TooShort)
      else if n > MaxContentLength then Some(TooLong)
      else None)
  {
    var s := Repeat('a', n);
    StrippedIsFixedPoint(s);
    KeepEverything(s, IsWordOrSpace);
    assert WordAndSpace(s) == s;
    assert |Strip(s)| == n && |s| == n;
    assert n > 0 ==> !IsSpace(s[0]);
  }

  /** Trailing whitespace counts against the maximum: 50 letters followed
      by enough spaces are refused as too long although the trimmed text is
      only 50 characters. */
  lemma PaddingCountsTowardsMaximum()
    ensures var s := Repeat('a', 50) + Repeat(' ', MaxContentLength);
      |Strip(s)| == 50 && ValidateContent(s) == Some(TooLong)
  {
    var a := Repeat('a', 50);
    var s := a + Repeat(' ', MaxContentLength);
    assert s[0] == 'a' && s[49] == 'a';
    assert s[50..] == Repeat(' ', MaxContentLength);
    StripOfSolidThenSpace(s, 50);
  }

  /** Text made only of punctuation has nothing left once non-word
      characters are dropped, so it is refused as insufficient. */
  lemma PunctuationOnlyRefused()
    ensures ValidateContent(Repeat('-', 50)) == Some(InsufficientText)
  {
    var s := Repeat('-', 50);
    StrippedIsFixedPoint(s);
    KeepNothing(s, IsWordOrSpace);
    assert WordAndSpace(s) == "";
  }
}
