/** The export decisions of App.tsx: the download file name, the share
    message, and which browser actions a download or a share performs.
    The browser actions are values of `Effect`; the PDF bytes are not
    modelled, only whether generation produced a blob. `formatBRL` and
    `encodeURIComponent` are parameters, their definitions are not part of
    this model. */
module Export {
  import opened Types
  import QuoteStore

  // ---------------------------------------------------------- file name

  const FileNamePrefix := "Recibo_"
  const FileNameSuffix := ".pdf"

  /** `\`Recibo_${data.clientName || 'TonCota'}.pdf\``: the stem is the
      client's name, or `TonCota` when it is blank, and never empty. */
  function DownloadName(clientName: string): (r: string)
    ensures |r| > |FileNamePrefix| + |FileNameSuffix|
    ensures r[..|FileNamePrefix|] == FileNamePrefix
    ensures r[|r| - |FileNameSuffix|..] == FileNameSuffix
    ensures r[|FileNamePrefix|..|r| - |FileNameSuffix|] == (if clientName == "" then "TonCota" else clientName)
  {
    var stem := OrElse(clientName, "TonCota");
    var r := FileNamePrefix + stem + FileNameSuffix;
    assert r[|FileNamePrefix|..|r| - |FileNameSuffix|] == stem;
    r
  }

  // ------------------------------------------------------------ trimming

  /** The characters `String.prototype.trim` removes: the ECMAScript
      WhiteSpace and LineTerminator code points. */
  predicate IsJsSpace(c: char)
  {
    c == '\t' || c == '\n' || c == '\U{000B}' || c == '\U{000C}' || c == '\r' || c == ' '
    || c == '\U{00A0}' || c == '\U{1680}' || ('\U{2000}' <= c <= '\U{200A}')
    || c == '\U{2028}' || c == '\U{2029}' || c == '\U{202F}' || c == '\U{205F}'
    || c == '\U{3000}' || c == '\U{FEFF}'
  }

  /** Drops the leading JavaScript whitespace. */
  function TrimStart(s: string): (r: string)
    ensures |r| <= |s| && r == s[|s| - |r|..]
    ensures forall i | 0 <= i < |s| - |r| :: IsJsSpace(s[i])
    ensures r == [] || !IsJsSpace(r[0])
  {
    if s != [] && IsJsSpace(s[0]) then TrimStart(s[1..]) else s
  }

  /** Drops the trailing JavaScript whitespace. */
  function TrimEnd(s: string): (r: string)
    ensures |r| <= |s| && r == s[..|r|]
    ensures forall i | |r| <= i < |s| :: IsJsSpace(s[i])
    ensures r == [] || !IsJsSpace(r[|r| - 1])
  {
    if s != [] && IsJsSpace(s[|s| - 1]) then TrimEnd(s[..|s| - 1]) else s
  }

  /** `String.prototype.trim`. */
  function Trim(s: string): string
  {
    TrimEnd(TrimStart(s))
  }

  /** Trimming text that neither starts nor ends with whitespace changes
      nothing. */
  lemma TrimKeepsBoundedText(s: string)
    requires s != [] && !IsJsSpace(s[0]) && !IsJsSpace(s[|s| - 1])
    ensures Trim(s) == s
  {
  }

  // -------------------------------------------------------------- message

  const PixPrefix := "\U{1F511} Chave Pix: "
  const TotalPrefix := "\U{1F4B0} Valor Total: "

  /** Whether a message line is the Pix line. */
  predicate IsPixLine(line: string)
  {
    |line| >= |PixPrefix| && line[..|PixPrefix|] == PixPrefix
  }

  /** A line whose first character is not the key emoji is not the Pix line. */
  lemma NotPixLine(line: string)
    requires line == [] || line[0] != PixPrefix[0]
    ensures !IsPixLine(line)
  {
    if |line| >= |PixPrefix| {
      assert line[..|PixPrefix|][0] == line[0];
    }
  }

  /** The lines of the message template. `brl` stands for `formatBRL`. */
  function MessageLines(q: QuoteData, brl: real -> string): (r: seq<string>)
    ensures |r| == 9
    ensures r[0] == "ORÇAMENTO - " + (if q.providerName == "" then "Prestador" else q.providerName)
    ensures r[1] == "Olá " + (if q.clientName == "" then "Cliente" else q.clientName)
                    + ", aqui está o resumo do seu orçamento:"
    ensures r[3] == TotalPrefix + brl(QuoteStore.Total(q.services))
    ensures r[4] == (if q.pixKey != "" then PixPrefix + q.pixKey else "")
  {
    [ "ORÇAMENTO - " + OrElse(q.providerName, "Prestador"),
      "Olá " + OrElse(q.clientName, "Cliente") + ", aqui está o resumo do seu orçamento:",
      "",
      TotalPrefix + brl(QuoteStore.Total(q.services)),
      if q.pixKey != "" then PixPrefix + q.pixKey else "",
      "",
      // one line, written as two literals so that its first character can
      // be read off in PixLineIffKey
      "Por favor, aguarde" + " que vou lhe enviar o PDF detalhado em seguida.",
      "",
      "Gerado via Ton Cota" ]
  }

  /** The message has a Pix line exactly when the quote has a Pix key, and
      then it is line 4 and carries that key. */
  lemma PixLineIffKey(q: QuoteData, brl: real -> string)
    ensures var r := MessageLines(q, brl);
            ((exists i | 0 <= i < |r| :: IsPixLine(r[i])) <==> q.pixKey != "") &&
            (q.pixKey != "" ==> IsPixLine(r[4]) && r[4][|PixPrefix|..] == q.pixKey)
  {
    var r := MessageLines(q, brl);
    assert r[0][0] == 'O' && r[1][0] == 'O' && r[3][0] == TotalPrefix[0];
    assert r[6][0] == 'P';
    NotPixLine(r[0]); NotPixLine(r[1]); NotPixLine(r[2]); NotPixLine(r[3]);
    NotPixLine(r[5]); NotPixLine(r[6]); NotPixLine(r[7]); NotPixLine(r[8]);
    if q.pixKey == "" {
      NotPixLine(r[4]);
    } else {
      assert r[4][..|PixPrefix|] == PixPrefix;
    }
  }

  /** The template starts with `O` and ends with `a`. */
  lemma MessageEdges(q: QuoteData, brl: real -> string)
    ensures var r := MessageLines(q, brl);
            r[0] != [] && r[0][0] == 'O' && r[8] != [] && r[8][|r[8]| - 1] == 'a'
  {
  }

  /** The lines joined with newlines, as the multi-line template writes them. */
  function JoinLines(ls: seq<string>): string
  {
    if ls == [] then "" else if |ls| == 1 then ls[0] else ls[0] + "\n" + JoinLines(ls[1..])
  }

  /** Joined lines start with the first line's first character and end with
      the last line's last character. */
  lemma {:induction false} JoinLinesEdges(ls: seq<string>)
    requires |ls| >= 1 && ls[0] != [] && ls[|ls| - 1] != []
    ensures var j := JoinLines(ls);
            j != [] && j[0] == ls[0][0] && j[|j| - 1] == ls[|ls| - 1][|ls[|ls| - 1]| - 1]
  {
    if |ls| > 1 {
      var rest := ls[1..];
      if |rest| > 1 {
        assert rest[0] + "\n" + JoinLines(rest[1..]) != [];
      }
      JoinLinesEdgesTail(rest);
    }
  }

  lemma {:induction false} JoinLinesEdgesTail(ls: seq<string>)
    requires |ls| >= 1 && ls[|ls| - 1] != []
    ensures var j := JoinLines(ls);
            j != [] && j[|j| - 1] == ls[|ls| - 1][|ls[|ls| - 1]| - 1]
  {
    if |ls| > 1 {
      JoinLinesEdgesTail(ls[1..]);
    }
  }

  /** The message the share action sends: the template, trimmed. The trim
      changes nothing, since the template starts with `O` and ends with
      `a`. */
  function ShareMessage(q: QuoteData, brl: real -> string): (r: string)
    ensures r == JoinLines(MessageLines(q, brl))
  {
    var lines := MessageLines(q, brl);
    MessageEdges(q, brl);
    JoinLinesEdges(lines);
    TrimKeepsBoundedText(JoinLines(lines));
    Trim(JoinLines(lines))
  }

  /** Editing a description leaves the share message as it was: it shows
      the names, the total and the Pix key only. */
  lemma MessageIgnoresDescriptions(q: QuoteData, id: string, d: string, brl: real -> string)
    ensures ShareMessage(QuoteStore.UpdateService(q, id, Description(d)), brl) == ShareMessage(q, brl)
  {
    QuoteStore.DescriptionEditKeepsTotal(q.services, id, d);
    assert MessageLines(QuoteStore.UpdateService(q, id, Description(d)), brl) == MessageLines(q, brl);
  }

  // -------------------------------------------------------------- effects

  /** What an export asks the browser to do. */
  datatype Effect =
    | SaveFile(fileName: string)
    | OpenUrl(url: string)
    | NativeShare(fileName: string, text: string, title: string)

  /** The download handler: the PDF is saved under the client's file name
      when generation produced a blob, and nothing happens otherwise. */
  function DownloadEffects(clientName: string, blobProduced: bool): (r: seq<Effect>)
    ensures |r| <= 1
    ensures r != [] <==> blobProduced
    ensures forall e | e in r :: e == SaveFile(DownloadName(clientName))
  {
    if blobProduced then [SaveFile(DownloadName(clientName))] else []
  }

  const SharedFileName := "Orcamento_TonCota.pdf"
  const ShareTitle := "Seu Orçamento"

  /** `https://wa.me/?text=` with the encoded message; `encode` stands for
      `encodeURIComponent`. The link carries text only, never a file. */
  function WhatsAppLink(message: string, encode: string -> string): string
  {
    "https://wa.me/?text=" + encode(message)
  }

  /** What the browser offers: `navigator.share` exists, and the user agent
      names a mobile device. */
  datatype Device = Device(canShare: bool, isMobile: bool)

  /** The native share sheet is tried exactly when there is a blob, the
      browser can share and the device is mobile. */
  predicate TriesNativeShare(blobProduced: bool, d: Device)
  {
    blobProduced && d.canShare && d.isMobile
  }

  /** The share handler's delivery. `shareAccepted` is whether the native
      share call resolved; it matters only when that call is made. */
  function ShareEffects(message: string, encode: string -> string, blobProduced: bool, d: Device,
                        shareAccepted: bool): (r: seq<Effect>)
    ensures (exists e | e in r :: e.NativeShare?) <==> TriesNativeShare(blobProduced, d)
    ensures (exists e | e in r :: e.SaveFile?) <==> blobProduced && !TriesNativeShare(blobProduced, d)
    ensures OpenUrl(WhatsAppLink(message, encode)) in r <==> !(TriesNativeShare(blobProduced, d) && shareAccepted)
    ensures forall e | e in r ::
              e == NativeShare(SharedFileName, message, ShareTitle) || e == SaveFile(SharedFileName)
              || e == OpenUrl(WhatsAppLink(message, encode))
    ensures r != [] && (r[0].NativeShare? || r[|r| - 1] == OpenUrl(WhatsAppLink(message, encode)))
    ensures |r| <= 2
    ensures forall i, j | 0 <= i < j < |r| :: r[i] != r[j]
    ensures OpenUrl(WhatsAppLink(message, encode)) in r ==> r[|r| - 1] == OpenUrl(WhatsAppLink(message, encode))
  {
    var link := OpenUrl(WhatsAppLink(message, encode));
    if TriesNativeShare(blobProduced, d) then
      var r := [NativeShare(SharedFileName, message, ShareTitle)] + (if shareAccepted then [] else [link]);
      assert r[0] in r && r[0].NativeShare?;
      r
    else
      var r := (if blobProduced then [SaveFile(SharedFileName)] else []) + [link];
      assert blobProduced ==> r[0] in r && r[0].SaveFile?;
      r
  }
}
