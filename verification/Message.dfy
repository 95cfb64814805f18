/**
 internal/walletauth/message.go: the canonical authorization message, printed and parsed.
 Instants are nanoseconds; the printed form keeps whole seconds (section 5.6 of RFC 3339).
 */
module Message {
  import opened Wrappers
  import opened Text

  const NANOS: int := 1_000_000_000

  /** Printing of a whole second and parsing of a timestamp to an instant, as a pair of functions. */
  datatype TimeText = TimeText(format: int -> string, parse: string -> Option<int>)

  /** This second is printed on one line, without blanks around it, and reads back as itself. */
  predicate Readable(tt: TimeText, second: int) {
    var s := tt.format(second);
    '\n' !in s && Trimmed(s) && tt.parse(s) == Some(second * NANOS)
  }

  const TITLE: string := "CAFE Crypto Policy Persistence"
  const FOOTER: string := FOOTER_1 + FOOTER_2 + FOOTER_3
  const FOOTER_1: string := "By signing this message, I prove control"
  const FOOTER_2: string := " of the wallet and authorize CAFE to"
  const FOOTER_3: string := " persist this Crypto Policy for this wallet."
  const PERSIST_ACTION: string := "persist_crypto_policy"

  datatype Fields = Fields(
    domain: string, action: string, wallet: string, chainID: Int64, scanID: string,
    payloadSHA256: string, issuedAt: int, expiresAt: int)

  function PrintInstant(tt: TimeText, t: int): (r: string) {
    tt.format(t / NANOS)
  }

  function MessageLines(tt: TimeText, f: Fields): (r: seq<string>)
    ensures |r| == 12
  {
    [ TITLE,
      "",
      "Domain: " + Trim(f.domain),
      "Action: " + Trim(f.action),
      "Wallet: " + Trim(f.wallet),
      "Chain ID: " + FormatInt(f.chainID),
      "Scan ID: " + Trim(f.scanID),
      "Payload SHA-256: " + Trim(f.payloadSHA256),
      "Issued At: " + PrintInstant(tt, f.issuedAt),
      "Expiration Time: " + PrintInstant(tt, f.expiresAt),
      "",
      FOOTER ]
  }

  function BuildMessage(tt: TimeText, f: Fields): (r: string) {
    JoinLines(MessageLines(tt, f))
  }

  /** The second half of the text. */
  function TextFromScan(tt: TimeText, f: Fields): (r: string) {
    "Scan ID: " + Trim(f.scanID) + "\n" +
    ("Payload SHA-256: " + Trim(f.payloadSHA256) + "\n" +
     ("Issued At: " + tt.format(f.issuedAt / 1_000_000_000) + "\n" +
      ("Expiration Time: " + tt.format(f.expiresAt / 1_000_000_000) + "\n" +
       ("" + "\n" + FOOTER))))
  }

  lemma TailReads(tt: TimeText, f: Fields)
    ensures JoinLines(MessageLines(tt, f)[6..]) == TextFromScan(tt, f)
  {
    hide Trim, FormatInt, JoinLines;
    var ls := MessageLines(tt, f);
    JoinFrom(ls, 6);
    JoinFrom(ls, 7);
    JoinFrom(ls, 8);
    JoinFrom(ls, 9);
    JoinFrom(ls, 10);
    assert ls[11..] == [FOOTER];
    JoinOne(FOOTER);
  }

  /** From the action on. */
  function TextFromAction(tt: TimeText, f: Fields): (r: string) {
    "Action: " + Trim(f.action) + "\n" +
    ("Wallet: " + Trim(f.wallet) + "\n" +
     ("Chain ID: " + FormatInt(f.chainID) + "\n" + TextFromScan(tt, f)))
  }

  lemma MiddleReads(tt: TimeText, f: Fields)
    ensures JoinLines(MessageLines(tt, f)[3..]) == TextFromAction(tt, f)
  {
    hide Trim, FormatInt, JoinLines, TextFromScan;
    var ls := MessageLines(tt, f);
    TailReads(tt, f);
    JoinFrom(ls, 3);
    JoinFrom(ls, 4);
    JoinFrom(ls, 5);
  }

  /** The text as the wallet shows it, line by line. */
  lemma MessageReads(tt: TimeText, f: Fields)
    ensures BuildMessage(tt, f) ==
            "CAFE Crypto Policy Persistence" + "\n" +
            ("" + "\n" + ("Domain: " + Trim(f.domain) + "\n" + TextFromAction(tt, f)))
  {
    hide Trim, FormatInt, JoinLines, TextFromAction;
    var ls := MessageLines(tt, f);
    MiddleReads(tt, f);
    JoinFrom(ls, 0);
    JoinFrom(ls, 1);
    JoinFrom(ls, 2);
    assert ls[0..] == ls;
  }

  lemma JoinFrom(lines: seq<string>, i: nat)
    requires i + 1 < |lines|
    ensures JoinLines(lines[i..]) == lines[i] + "\n" + JoinLines(lines[i + 1..])
  {
    assert lines[i..][1..] == lines[i + 1..];
  }

  // ----------------------------------------------------------------- parsing

  /** The rest of the first line that starts with the prefix. */
  function ReadField(lines: seq<string>, prefix: string): (r: Option<string>) {
    if lines == [] then None
    else if HasPrefix(lines[0], prefix) then Some(Trim(lines[0][|prefix|..]))
    else ReadField(lines[1..], prefix)
  }

  method ReadFieldLoop(lines: seq<string>, prefix: string) returns (r: Option<string>)
    ensures r == ReadField(lines, prefix)
  {
    hide Trim;
    var i := 0;
    while i < |lines|
      invariant 0 <= i <= |lines|
      invariant ReadField(lines, prefix) == ReadField(lines[i..], prefix)
    {
      if HasPrefix(lines[i], prefix) {
        return Some(Trim(lines[i][|prefix|..]));
      }
      i := i + 1;
    }
    return None;
  }

  predicate FrameOk(lines: seq<string>) {
    |lines| >= 11 && Trim(lines[0]) == TITLE && Trim(lines[|lines| - 1]) == FOOTER
  }

  function ParseLines(tt: TimeText, lines: seq<string>): (r: Option<Fields>) {
    var domain :- ReadField(lines, "Domain: ");
    var action :- ReadField(lines, "Action: ");
    var wallet :- ReadField(lines, "Wallet: ");
    var chainRaw :- ReadField(lines, "Chain ID: ");
    var chainID :- ParseInt(chainRaw);
    if chainID < 1 then None else
    var scanID :- ReadField(lines, "Scan ID: ");
    var sha :- ReadField(lines, "Payload SHA-256: ");
    if Trim(sha) == "" then None else
    if ReadField(lines, "Draft ID: ").Some? then None else
    var issuedRaw :- ReadField(lines, "Issued At: ");
    var expiresRaw :- ReadField(lines, "Expiration Time: ");
    var issuedAt :- tt.parse(issuedRaw);
    var expiresAt :- tt.parse(expiresRaw);
    Some(Fields(domain, action, wallet, chainID, scanID, sha, issuedAt, expiresAt))
  }

  function Parsed(tt: TimeText, message: string): (r: Option<Fields>) {
    var lines := SplitLines(message);
    if FrameOk(lines) then ParseLines(tt, lines) else None
  }

  method ParseMessage(tt: TimeText, message: string) returns (r: Option<Fields>)
    ensures r == Parsed(tt, message)
  {
    hide Trim, ReadField, ParseInt, SplitLines;
    var lines := SplitLines(message);
    if |lines| < 11 || Trim(lines[0]) != TITLE || Trim(lines[|lines| - 1]) != FOOTER {
      return None;
    }
    var domain := ReadFieldLoop(lines, "Domain: ");
    if domain.None? { return None; }
    var action := ReadFieldLoop(lines, "Action: ");
    if action.None? { return None; }
    var wallet := ReadFieldLoop(lines, "Wallet: ");
    if wallet.None? { return None; }
    var chainRaw := ReadFieldLoop(lines, "Chain ID: ");
    if chainRaw.None? { return None; }
    var chainID := ParseInt(chainRaw.value);
    if chainID.None? || chainID.value < 1 { return None; }
    var scanID := ReadFieldLoop(lines, "Scan ID: ");
    if scanID.None? { return None; }
    var sha := ReadFieldLoop(lines, "Payload SHA-256: ");
    if sha.None? || Trim(sha.value) == "" { return None; }
    var draft := ReadFieldLoop(lines, "Draft ID: ");
    if draft.Some? { return None; }
    var issuedRaw := ReadFieldLoop(lines, "Issued At: ");
    if issuedRaw.None? { return None; }
    var expiresRaw := ReadFieldLoop(lines, "Expiration Time: ");
    if expiresRaw.None? { return None; }
    var issuedAt := tt.parse(issuedRaw.value);
    if issuedAt.None? { return None; }
    var expiresAt := tt.parse(expiresRaw.value);
    if expiresAt.None? { return None; }
    return Some(Fields(domain.value, action.value, wallet.value, chainID.value, scanID.value, sha.value,
      issuedAt.value, expiresAt.value));
  }

  predicate StartsWith(line: string, prefix: string) {
    |prefix| <= |line| && forall i :: 0 <= i < |prefix| ==> line[i] == prefix[i]
  }

  /** The first line with this label carries this text. */
  predicate Carries(lines: seq<string>, prefix: string, v: string) {
    exists k :: 0 <= k < |lines| && FirstLabelled(lines, prefix, k) && Trim(lines[k][|prefix|..]) == v
  }

  predicate FirstLabelled(lines: seq<string>, prefix: string, k: nat) {
    k < |lines| && |prefix| <= |lines[k]| && StartsWith(lines[k], prefix) && forall j :: 0 <= j < k ==>
                                                            !StartsWith(lines[j], prefix)
  }

  lemma PrefixIsStart(line: string, prefix: string)
    ensures HasPrefix(line, prefix) <==> StartsWith(line, prefix)
  {
    if |prefix| <= |line| {
      assert forall i :: 0 <= i < |prefix| ==> line[..|prefix|][i] == line[i];
    }
  }

  lemma {:induction false} ReadFieldExact(lines: seq<string>, prefix: string, v: string)
    ensures ReadField(lines, prefix) == Some(v) <==> Carries(lines, prefix, v)
    ensures ReadField(lines, prefix) == None <==> forall k :: 0 <= k < |lines| ==> !StartsWith(lines[k], prefix)
  {
    hide Trim, StartsWith, HasPrefix;
    if lines == [] {
    } else {
      var rest := lines[1..];
      ReadFieldExact(rest, prefix, v);
      PrefixIsStart(lines[0], prefix);
      assert forall k :: 1 <= k < |lines| ==> lines[k] == rest[k - 1];
      if StartsWith(lines[0], prefix) {
        LabelWidth(lines[0], prefix);
        assert FirstLabelled(lines, prefix, 0);
      } else {
        forall k: nat ensures FirstLabelled(lines, prefix, k + 1) <==> FirstLabelled(rest, prefix, k) {
          FirstLabelledShift(lines, prefix, k);
        }
        if Carries(rest, prefix, v) {
          var k :| 0 <= k < |rest| && FirstLabelled(rest, prefix, k) && Trim(rest[k][|prefix|..]) == v;
          assert FirstLabelled(lines, prefix, k + 1);
        }
        if Carries(lines, prefix, v) {
          var k :| 0 <= k < |lines| && FirstLabelled(lines, prefix, k) && Trim(lines[k][|prefix|..]) == v;
          assert k > 0 && FirstLabelled(rest, prefix, k - 1);
        }
      }
    }
  }

  lemma LabelWidth(line: string, prefix: string)
    requires StartsWith(line, prefix)
    ensures |prefix| <= |line|
  {
  }

  lemma FirstLabelledShift(lines: seq<string>, prefix: string, k: nat)
    requires lines != [] && !StartsWith(lines[0], prefix)
    ensures FirstLabelled(lines, prefix, k + 1) <==> FirstLabelled(lines[1..], prefix, k)
  {
    hide StartsWith;
    assert forall j :: 1 <= j < |lines| ==> lines[j] == lines[1..][j - 1];
    if FirstLabelled(lines[1..], prefix, k) {
      forall j | 0 <= j < k + 1 ensures !StartsWith(lines[j], prefix) {
        assert j > 0 ==> lines[j] == lines[1..][j - 1];
      }
    }
    if FirstLabelled(lines, prefix, k + 1) {
      forall j | 0 <= j < k ensures !StartsWith(lines[1..][j], prefix) {
        assert lines[1..][j] == lines[j + 1];
      }
    }
  }

  /** What a message must look like to be read as these fields. */
  ghost predicate ReadsAs(tt: TimeText, lines: seq<string>, f: Fields) {
    && |lines| >= 11
    && Trim(lines[0]) == "CAFE Crypto Policy Persistence" && Trim(lines[|lines| - 1]) == FOOTER
    && Carries(lines, "Domain: ", f.domain) && Carries(lines, "Action: ", f.action)
    && Carries(lines, "Wallet: ", f.wallet) && Carries(lines, "Scan ID: ", f.scanID)
    && Carries(lines, "Payload SHA-256: ", f.payloadSHA256) && f.payloadSHA256 != ""
    && (exists raw :: Carries(lines, "Chain ID: ", raw) && ParseInt(raw) == Some(f.chainID)) && f.chainID >= 1
    && (exists raw :: Carries(lines, "Issued At: ", raw) && tt.parse(raw) == Some(f.issuedAt))
    && (exists raw :: Carries(lines, "Expiration Time: ", raw) && tt.parse(raw) == Some(f.expiresAt))
    && (forall k :: 0 <= k < |lines| ==> !StartsWith(lines[k], "Draft ID: "))
  }

  lemma CarriesOne(lines: seq<string>, prefix: string)
    ensures ReadField(lines, prefix).Some? ==> Carries(lines, prefix, ReadField(lines, prefix).value)
    ensures forall v :: Carries(lines, prefix, v) ==> ReadField(lines, prefix) == Some(v)
    ensures ReadField(lines, prefix).Some? ==> Trim(ReadField(lines, prefix).value) == ReadField(lines, prefix).value
  {
    hide Trim, ReadField, FirstLabelled;
    forall v ensures Carries(lines, prefix, v) <==> ReadField(lines, prefix) == Some(v) {
      ReadFieldExact(lines, prefix, v);
    }
  }

  /** A message is read as some fields exactly when it looks like that. */
  lemma ParseExact(tt: TimeText, message: string, f: Fields)
    ensures Parsed(tt, message) == Some(f) <==> ReadsAs(tt, SplitLines(message), f)
  {
    hide Trim, ReadField, ParseInt, SplitLines, Carries, StartsWith;
    var lines := SplitLines(message);
    CarriesOne(lines, "Domain: ");
    CarriesOne(lines, "Action: ");
    CarriesOne(lines, "Wallet: ");
    CarriesOne(lines, "Chain ID: ");
    CarriesOne(lines, "Scan ID: ");
    CarriesOne(lines, "Payload SHA-256: ");
    CarriesOne(lines, "Issued At: ");
    CarriesOne(lines, "Expiration Time: ");
    ReadFieldExact(lines, "Draft ID: ", "");
  }

  // -------------------------------------------------------------- round trip

  /** The line starts with these two characters. */
  predicate Tagged(line: string, a: char, b: char) {
    |line| >= 2 && line[0] == a && line[1] == b
  }

  lemma OtherTag(line: string, prefix: string)
    requires |prefix| >= 2
    requires line == "" || (|line| >= 2 && (line[0] != prefix[0] || line[1] != prefix[1]))
    ensures !HasPrefix(line, prefix)
  {
    var n := if |prefix| <= |line| then |prefix| else 0;
    assert forall i :: 0 <= i < n ==> line[..n][i] == line[i];
  }

  lemma {:induction false} ReadAt(lines: seq<string>, prefix: string, k: nat, v: string)
    requires |prefix| >= 2 && k < |lines| && lines[k] == prefix + v
    requires forall j :: 0 <= j < k ==>
               lines[j] == "" || (|lines[j]| >= 2 && (lines[j][0] != prefix[0] || lines[j][1] != prefix[1]))
    ensures ReadField(lines, prefix) == Some(Trim(v))
  {
    hide Trim;
    if k == 0 {
      assert lines[0][|prefix|..] == v;
    } else {
      OtherTag(lines[0], prefix);
      ReadAt(lines[1..], prefix, k - 1, v);
    }
  }

  lemma {:induction false} ReadNone(lines: seq<string>, prefix: string)
    requires |prefix| >= 2
    requires forall j :: 0 <= j < |lines| ==>
               lines[j] == "" || (|lines[j]| >= 2 && (lines[j][0] != prefix[0] || lines[j][1] != prefix[1]))
    ensures ReadField(lines, prefix) == None
  {
    if lines == [] {
    } else {
      OtherTag(lines[0], prefix);
      ReadNone(lines[1..], prefix);
    }
  }

  /** The first two characters of every line tell the lines apart. */
  lemma LineTags(tt: TimeText, f: Fields)
    ensures var ls := MessageLines(tt, f);
            && Tagged(ls[0], 'C', 'A') && ls[1] == "" && Tagged(ls[2], 'D', 'o') && Tagged(ls[3], 'A', 'c')
            && Tagged(ls[4], 'W', 'a') && Tagged(ls[5], 'C', 'h') && Tagged(ls[6], 'S', 'c') && Tagged(ls[7], 'P', 'a')
            && Tagged(ls[8], 'I', 's') && Tagged(ls[9], 'E', 'x') && ls[10] == "" && Tagged(ls[11], 'B', 'y')
  {
    hide Trim, FormatInt;
    assert Tagged(TITLE, 'C', 'A') && Tagged(FOOTER_1, 'B', 'y');
  }

  lemma ReadBack1(tt: TimeText, f: Fields)
    ensures var ls := MessageLines(tt, f);
            && ReadField(ls, "Domain: ") == Some(Trim(f.domain))
            && ReadField(ls, "Action: ") == Some(Trim(f.action))
            && ReadField(ls, "Wallet: ") == Some(Trim(f.wallet))
  {
    hide Trim, FormatInt, ReadField;
    var ls := MessageLines(tt, f);
    LineTags(tt, f);
    ReadAt(ls, "Domain: ", 2, Trim(f.domain));
    ReadAt(ls, "Action: ", 3, Trim(f.action));
    ReadAt(ls, "Wallet: ", 4, Trim(f.wallet));
  }

  lemma ReadBack2(tt: TimeText, f: Fields)
    ensures var ls := MessageLines(tt, f);
            && ReadField(ls, "Chain ID: ") == Some(FormatInt(f.chainID))
            && ReadField(ls, "Scan ID: ") == Some(Trim(f.scanID))
            && ReadField(ls, "Payload SHA-256: ") == Some(Trim(f.payloadSHA256))
  {
    hide Trim, FormatInt, ReadField;
    var ls := MessageLines(tt, f);
    LineTags(tt, f);
    FormatIntTrimmed(f.chainID);
    ReadAt(ls, "Chain ID: ", 5, FormatInt(f.chainID));
    ReadAt(ls, "Scan ID: ", 6, Trim(f.scanID));
    ReadAt(ls, "Payload SHA-256: ", 7, Trim(f.payloadSHA256));
  }

  lemma ReadBack3(tt: TimeText, f: Fields)
    ensures var ls := MessageLines(tt, f);
            && ReadField(ls, "Draft ID: ") == None
            && ReadField(ls, "Issued At: ") == Some(Trim(PrintInstant(tt, f.issuedAt)))
            && ReadField(ls, "Expiration Time: ") == Some(Trim(PrintInstant(tt, f.expiresAt)))
  {
    hide Trim, FormatInt, ReadField;
    var ls := MessageLines(tt, f);
    LineTags(tt, f);
    ReadNone(ls, "Draft ID: ");
    ReadAt(ls, "Issued At: ", 8, PrintInstant(tt, f.issuedAt));
    ReadAt(ls, "Expiration Time: ", 9, PrintInstant(tt, f.expiresAt));
  }

  /** The values a message carries: trimmed texts and whole seconds. */
  function Carried(f: Fields): (r: Fields) {
    Fields(Trim(f.domain), Trim(f.action), Trim(f.wallet), f.chainID, Trim(f.scanID), Trim(f.payloadSHA256),
      f.issuedAt / NANOS * NANOS, f.expiresAt / NANOS * NANOS)
  }

  /** Fields that fit the line format. */
  predicate OneLineEach(tt: TimeText, f: Fields) {
    && '\n' !in Trim(f.domain) && '\n' !in Trim(f.action) && '\n' !in Trim(f.wallet)
    && '\n' !in Trim(f.scanID) && '\n' !in Trim(f.payloadSHA256)
    && f.chainID >= 1 && Trim(f.payloadSHA256) != ""
    && Readable(tt, f.issuedAt / NANOS) && Readable(tt, f.expiresAt / NANOS)
  }

  lemma FrameLines()
    ensures '\n' !in TITLE && '\n' !in FOOTER && Trimmed(TITLE) && Trimmed(FOOTER)
  {
    FooterStart();
    FooterMiddle();
    FooterEnd();
    JoinPieces(FOOTER_1, FOOTER_2, FOOTER_3);
    TitleLine();
  }

  lemma TitleLine()
    ensures '\n' !in TITLE && Trimmed(TITLE)
  {
    assert |TITLE| == 30 && TITLE[0] == 'C' && TITLE[29] == 'e';
  }

  lemma FooterStart()
    ensures '\n' !in FOOTER_1 && |FOOTER_1| == 40 && !IsSpace(FOOTER_1[0])
  {
    assert FOOTER_1[0] == 'B';
  }

  lemma FooterMiddle()
    ensures '\n' !in FOOTER_2
  {
  }

  lemma FooterEnd()
    ensures '\n' !in FOOTER_3 && |FOOTER_3| == 44 && !IsSpace(FOOTER_3[43])
  {
    assert FOOTER_3[43] == '.';
  }

  lemma JoinPieces(a: string, b: string, c: string)
    requires '\n' !in a && '\n' !in b && '\n' !in c
    requires a != [] && c != [] && !IsSpace(a[0]) && !IsSpace(c[|c| - 1])
    ensures '\n' !in a + b + c && Trimmed(a + b + c)
  {
    var s := a + b + c;
    assert s[0] == a[0] && s[|s| - 1] == c[|c| - 1];
  }

  lemma LinesNewlineFree(tt: TimeText, f: Fields)
    requires OneLineEach(tt, f)
    ensures forall i :: 0 <= i < 12 ==> '\n' !in MessageLines(tt, f)[i]
  {
    hide Trim, FormatInt;
    FrameLines();
    FormatIntTrimmed(f.chainID);
  }

  lemma SplitBuilt(tt: TimeText, f: Fields)
    requires OneLineEach(tt, f)
    ensures SplitLines(BuildMessage(tt, f)) == MessageLines(tt, f)
    ensures FrameOk(MessageLines(tt, f))
  {
    hide OneLineEach, Trim, FormatInt, JoinLines, SplitLines;
    LinesNewlineFree(tt, f);
    SplitJoin(MessageLines(tt, f));
    FrameLines();
  }

  /** ParseMessage undoes BuildMessage. */
  lemma ParseUndoesBuild(tt: TimeText, f: Fields)
    requires OneLineEach(tt, f)
    ensures Parsed(tt, BuildMessage(tt, f)) == Some(Carried(f))
  {
    hide Trim, FormatInt, ParseInt, ReadField, MessageLines, BuildMessage, SplitLines, FrameOk;
    SplitBuilt(tt, f);
    ReadBack1(tt, f);
    ReadBack2(tt, f);
    ReadBack3(tt, f);
    ParseFormatInt(f.chainID);
  }

  /** In particular on fields that are already in carried form, where printing is therefore injective. */
  lemma BuildInjective(tt: TimeText, f: Fields, g: Fields)
    requires OneLineEach(tt, f) && OneLineEach(tt, g)
    requires Carried(f) == f && Carried(g) == g
    ensures Parsed(tt, BuildMessage(tt, f)) == Some(f)
    ensures BuildMessage(tt, f) == BuildMessage(tt, g) ==> f == g
  {
    hide OneLineEach, BuildMessage, Parsed, Carried;
    ParseUndoesBuild(tt, f);
    ParseUndoesBuild(tt, g);
  }

  // --------------------------------------------- equal texts without hypotheses

  /**
   Two builds with the same text agree on the domain and the digest as soon as their other
   fields agree, even if fields hold newlines: the lines then have equal lengths.
   */
  lemma SameTextSameDomain(tt: TimeText, f: Fields, g: Fields)
    requires BuildMessage(tt, f) == BuildMessage(tt, g)
    requires Trim(f.action) == Trim(g.action) && Trim(f.wallet) == Trim(g.wallet) && f.chainID == g.chainID
    requires Trim(f.scanID) == Trim(g.scanID) && |Trim(f.payloadSHA256)| == |Trim(g.payloadSHA256)|
    requires f.issuedAt == g.issuedAt && f.expiresAt == g.expiresAt
    ensures Trim(f.domain) == Trim(g.domain) && Trim(f.payloadSHA256) == Trim(g.payloadSHA256)
  {
    hide Trim, FormatInt, JoinLines;
    var a, b := MessageLines(tt, f), MessageLines(tt, g);
    JoinLength(a);
    JoinLength(b);
    assert forall i :: 0 <= i < 12 && i != 2 ==> |a[i]| == |b[i]|;
    OneLineLength(a, b, 2);
    JoinInjectiveOnLengths(a, b);
    assert a[2] == b[2] && a[7] == b[7];
    PrefixCancels("Domain: ", Trim(f.domain), Trim(g.domain));
    PrefixCancels("Payload SHA-256: ", Trim(f.payloadSHA256), Trim(g.payloadSHA256));
  }

  lemma PrefixCancels(p: string, a: string, b: string)
    requires p + a == p + b
    ensures a == b
  {
    assert (p + a)[|p|..] == a && (p + b)[|p|..] == b;
  }
}
