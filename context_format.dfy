/**
 * How the legal assistant with retrieval turns the retrieved passages into
 * the context block of its prompt (`dsa_formata_docs` in
 * cap-14/dsa_app_com_rag.py). Each passage becomes
 * `[p.<page>] "<excerpt><marker>"`, and the entries are joined by blank lines.
 */
module ContextFormat {
  import opened Options
  import opened Text

  /** A metadata value as the PDF loader stores it; `Render` gives Python's `str()` of it. */
  datatype MetaValue = IntValue(i: int) | StrValue(s: string) | BoolValue(b: bool) | NoneValue

  /** A retrieved passage: its text and its metadata dictionary, which may be None. */
  datatype Document = Document(pageContent: string, metadata: Option<map<string, MetaValue>>)

  /** Longest excerpt quoted per passage. */
  const MaxExcerpt: nat := 800
  /** Appended after the excerpt of a long passage. */
  const Ellipsis: string := "…"
  /** Placed between two entries. */
  const Separator: string := "\n\n"

  function Render(v: MetaValue): string {
    match v
    case IntValue(i) => IntToDecimal(i)
    case StrValue(s) => s
    case BoolValue(b) => if b then "True" else "False"
    case NoneValue => "None"
  }

  /** The text after `p.`: the `page` metadata value, or `?` when there is none. */
  function PageLabel(metadata: Option<map<string, MetaValue>>): string {
    var meta := metadata.GetOr(map[]);
    if "page" in meta then Render(meta["page"]) else "?"
  }

  /** The quoted part: the whitespace-stripped text cut to at most `MaxExcerpt` characters. */
  function Excerpt(content: string): (x: string)
    ensures |x| <= MaxExcerpt
    ensures x <= Strip(content)
    ensures |x| == if |Strip(content)| <= MaxExcerpt then |Strip(content)| else MaxExcerpt
  {
    var t := Strip(content);
    if |t| <= MaxExcerpt then t else t[..MaxExcerpt]
  }

  /** The ellipsis is decided by the length of the text BEFORE stripping. */
  function Marker(content: string): string {
    if |content| > MaxExcerpt then Ellipsis else ""
  }

  /** The page tag `p.<page>`. */
  function Where(metadata: Option<map<string, MetaValue>>): string {
    "p." + PageLabel(metadata)
  }

  /** The line for one passage. */
  function Entry(d: Document): string {
    "[" + Where(d.metadata) + "] \"" + Excerpt(d.pageContent) + Marker(d.pageContent) + "\""
  }

  /** The entries of all passages, in retrieval order. */
  function Entries(docs: seq<Document>): seq<string> {
    seq(|docs|, k requires 0 <= k < |docs| => Entry(docs[k]))
  }

  /** The whole context block. */
  function Formatted(docs: seq<Document>): string {
    Join(Entries(docs), Separator)
  }

  /**
   * `dsa_formata_docs`: builds the list of entries passage by passage, then
   * joins it. The passages are values, so the method cannot change them.
   */
  method FormatDocs(docs: seq<Document>) returns (r: string)
    ensures r == Formatted(docs)
    ensures docs == [] ==> r == ""
  {
    var out: seq<string> := [];
    for i := 0 to |docs|
      invariant |out| == i
      invariant forall k :: 0 <= k < i ==> out[k] == Entry(docs[k])
    {
      var d := docs[i];
      var meta := if d.metadata.Some? then d.metadata.value else map[];
      var where := "p." + (if "page" in meta then Render(meta["page"]) else "?");
      var stripped := Strip(d.pageContent);
      var cut := if |stripped| <= MaxExcerpt then stripped else stripped[..MaxExcerpt];
      var marker := if |d.pageContent| > MaxExcerpt then Ellipsis else "";
      assert where == Where(d.metadata) && cut == Excerpt(d.pageContent) && marker == Marker(d.pageContent);
      out := out + ["[" + where + "] \"" + cut + marker + "\""];
    }
    assert out == Entries(docs);
    r := Join(out, Separator);
  }

  /**
   * The shape of one entry: the page tag, an opening quote, the first
   * `MaxExcerpt` characters of the stripped text (all of it when shorter),
   * the ellipsis exactly when the unstripped text is longer than
   * `MaxExcerpt`, and a closing quote.
   */
  lemma EntryLayout(d: Document)
    ensures var e := Entry(d);
            var t := Strip(d.pageContent);
            var m := if |t| <= MaxExcerpt then |t| else MaxExcerpt;
            var head := "[" + Where(d.metadata) + "] \"";
            var tail := t[..m] + (if |d.pageContent| > MaxExcerpt then Ellipsis else "");
            |e| == |head| + |tail| + 1 &&
            e[..|head|] == head &&
            e[|head|..|e| - 1] == tail &&
            e[|e| - 1] == '"'
  {
    var e := Entry(d);
    var t := Strip(d.pageContent);
    var m := if |t| <= MaxExcerpt then |t| else MaxExcerpt;
    assert Excerpt(d.pageContent) == t[..m];
    var head := "[" + Where(d.metadata) + "] \"";
    var tail := Excerpt(d.pageContent) + Marker(d.pageContent);
    assert e == head + tail + "\"";
    assert e[..|head|] == head;
    assert e[|head|..|e| - 1] == tail;
  }

  /**
   * Every cut is marked with the ellipsis; the ellipsis appears although
   * nothing was cut exactly when the passage is longer than `MaxExcerpt` only
   * because of the whitespace around it.
   */
  lemma CutIsMarked(content: string)
    ensures Excerpt(content) != Strip(content) ==> Marker(content) == Ellipsis
    ensures (Marker(content) == Ellipsis && Excerpt(content) == Strip(content)) <==>
            (|content| > MaxExcerpt && |Strip(content)| <= MaxExcerpt)
  {
  }

  /** A passage of one letter followed by 800 spaces is quoted whole, yet gets the ellipsis. */
  lemma EllipsisWithoutCut()
    ensures var content := "a" + seq(MaxExcerpt, _ => ' ');
            Excerpt(content) == "a" && Marker(content) == Ellipsis &&
            Entry(Document(content, None)) == "[p.?] \"a…\""
  {
    var content := "a" + seq(MaxExcerpt, _ => ' ');
    assert content[0..1] == "a";
    StripIsTrimmedSlice(content, 0, 1);
  }

  /** A page number is printed so that it can be read back: the entry cites the right page. */
  lemma PageNumberReadable(m: map<string, MetaValue>, n: nat)
    requires "page" in m && m["page"] == IntValue(n)
    ensures var tag := PageLabel(Some(m));
            tag != [] && (forall k :: 0 <= k < |tag| ==> IsDigit(tag[k])) && DecimalValue(tag) == n
  {
    NatToDecimalRoundTrip(n);
  }

  /** Without a `page` key, or without metadata at all, the label is `?`. */
  lemma MissingPageIsQuestionMark(metadata: Option<map<string, MetaValue>>)
    requires metadata.None? || "page" !in metadata.value
    ensures PageLabel(metadata) == "?"
  {
  }

  /**
   * The context block holds one entry per passage, in retrieval order, each
   * at its offset and followed by a blank line unless it is the last; its
   * length is the entries' lengths plus two characters per gap.
   */
  lemma {:induction false} FormattedLayout(docs: seq<Document>, k: nat)
    requires k < |docs|
    ensures var f := Formatted(docs);
            var o := Offset(Entries(docs), Separator, k);
            var e := Entry(docs[k]);
            o + |e| <= |f| &&
            f[o..o + |e|] == e &&
            (k + 1 < |docs| ==> o + |e| + 2 <= |f| && f[o + |e|..o + |e| + 2] == Separator) &&
            |f| == SumLen(Entries(docs)) + 2 * (|docs| - 1)
  {
    JoinPieceAt(Entries(docs), Separator, k);
    JoinLength(Entries(docs), Separator);
  }
}
