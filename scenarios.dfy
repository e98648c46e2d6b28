/**
 * A typical announcement of a Bambu Lab printer, carried end to end through the parser and the
 * registry: it registers, re-sending it is skipped, and with a foreign URN it is rejected.
 */
module Scenarios {
  import opened Wrappers
  import opened Text
  import opened Announcement
  import opened Registry

  /** Trimming removes a '\r' left at the end of a line by the split at '\n'. */
  lemma TrimCarriageReturn(s: string)
    requires s != [] && IsTrimmed(s)
    ensures Trim(s + "\r") == s
  {
    var t := s + "\r";
    assert TrimStart(t) == t;
    assert t[..|t| - 1] == s;
    TrimOfTrimmed(s);
    assert TrimEnd(s) == s;
  }

  /** Trimming removes the space after a colon. */
  lemma TrimLeadingSpace(s: string)
    requires s != [] && IsTrimmed(s)
    ensures Trim(" " + s) == s
  {
    var t := " " + s;
    assert t[1..] == s;
    assert TrimStart(s) == s;
    assert TrimStart(t) == s;
    TrimOfTrimmed(s);
  }

  /** A line `token: value`, as an announcement writes it. */
  function Line(token: string, value: string): string {
    token + ": " + value
  }

  /** Such a line, with trimmed parts and no colon in the token, is that entry. */
  lemma EntryOfLine(token: string, value: string)
    requires token != [] && IsTrimmed(token) && ':' !in token
    requires value != [] && IsTrimmed(value)
    ensures Line(token, value) != [] && IsTrimmed(Line(token, value))
    ensures '\n' !in token && '\n' !in value ==> '\n' !in Line(token, value)
    ensures EntryOf(Line(token, value)) == Some(Entry(Classify(token), value))
  {
    var l := Line(token, value);
    assert l[0] == token[0] && l[|l| - 1] == value[|value| - 1];
    TrimOfTrimmed(l);
    assert l == token + [':'] + (" " + value);
    SplitOnceOf(token, ':', " " + value);
    TrimOfTrimmed(token);
    TrimLeadingSpace(value);
  }

  /** Lines as a datagram sends them: each ended by '\r', and an empty piece after the last '\n'. */
  function CrEnded(lines: seq<string>): (raw: seq<string>)
    ensures |raw| == |lines| + 1
  {
    if lines == [] then [[]] else [lines[0] + "\r"] + CrEnded(lines[1..])
  }

  lemma {:induction false} CrEndedHasNoNewline(lines: seq<string>)
    requires forall i :: 0 <= i < |lines| ==> '\n' !in lines[i]
    ensures forall i :: 0 <= i < |CrEnded(lines)| ==> '\n' !in CrEnded(lines)[i]
  {
    if lines != [] {
      CrEndedHasNoNewline(lines[1..]);
      assert forall i :: 1 <= i < |CrEnded(lines)| ==> CrEnded(lines)[i] == CrEnded(lines[1..])[i - 1];
    }
  }

  /** The '\r' ends and the final empty piece are exactly what the blank-line filter removes. */
  lemma {:induction false} NonBlankOfCrEnded(lines: seq<string>)
    requires forall i :: 0 <= i < |lines| ==> lines[i] != [] && IsTrimmed(lines[i])
    ensures NonBlank(CrEnded(lines)) == lines
  {
    if lines != [] {
      TrimCarriageReturn(lines[0]);
      NonBlankOfCrEnded(lines[1..]);
      assert CrEnded(lines)[1..] == CrEnded(lines[1..]);
    }
  }

  /** The non-blank lines of a typical announcement, with `urn` as `NT`. */
  function ScenarioLines(urn: string): seq<string> {
    [NotifyHeader, Line(LocationToken, "10.0.0.5"), Line(UrnToken, urn),
     Line(NameToken, "MyPrinter"), Line(SerialToken, "SN123")]
  }

  /**
   * The scenario datagram: "NOTIFY * HTTP/1.1\r\nLocation: 10.0.0.5\r\nNT: <urn>\r\n
   * DevName.bambu.com: MyPrinter\r\nUSN: SN123\r\n".
   */
  function Datagram(urn: string): string {
    Join(CrEnded(ScenarioLines(urn)))
  }

  /** Non-blank trimmed lines sent CRLF-ended come back out of the split and the filter unchanged. */
  lemma RoundTripOfCrEnded(lines: seq<string>)
    requires forall i :: 0 <= i < |lines| ==> lines[i] != [] && IsTrimmed(lines[i]) && '\n' !in lines[i]
    ensures NonBlank(SplitLines(Join(CrEnded(lines)))) == lines
  {
    CrEndedHasNoNewline(lines);
    JoinSplitLines(CrEnded(lines));
    NonBlankOfCrEnded(lines);
  }

  lemma DatagramSplit(urn: string)
    requires urn != [] && IsTrimmed(urn) && '\n' !in urn
    ensures NonBlank(SplitLines(Datagram(urn))) == ScenarioLines(urn)
  {
    ScenarioLinesTrimmed(urn);
    RoundTripOfCrEnded(ScenarioLines(urn));
  }

  lemma ScenarioLinesTrimmed(urn: string)
    requires urn != [] && IsTrimmed(urn) && '\n' !in urn
    ensures forall i :: 0 <= i < |ScenarioLines(urn)| ==>
            ScenarioLines(urn)[i] != [] && IsTrimmed(ScenarioLines(urn)[i]) && '\n' !in ScenarioLines(urn)[i]
  {
    var ls := ScenarioLines(urn);
    forall i | 0 <= i < |ls| ensures ls[i] != [] && IsTrimmed(ls[i]) && '\n' !in ls[i] {
      if i == 0 {
        HeaderLine();
      } else if i == 1 {
        LocationLine();
      } else if i == 2 {
        UrnLine(urn);
      } else if i == 3 {
        NameLine();
      } else {
        SerialLine();
      }
    }
  }

  lemma HeaderLine()
    ensures NotifyHeader != [] && IsTrimmed(NotifyHeader) && '\n' !in NotifyHeader
  {
  }

  /** The scenario's token lines, classified. */
  ghost predicate ScenarioEntries(es: seq<Option<Entry>>, urn: string) {
    && |es| == 4
    && es[0] == Some(Entry(LocationTok, "10.0.0.5"))
    && es[1] == Some(Entry(UrnTok, urn))
    && es[2] == Some(Entry(NameTok, "MyPrinter"))
    && es[3] == Some(Entry(SerialTok, "SN123"))
  }

  /** Each token line is split at its first colon, trimmed and classified. */
  lemma EntriesOfScenario(urn: string)
    requires urn != [] && IsTrimmed(urn)
    ensures ScenarioEntries(Entries(ScenarioLines(urn)[1..]), urn)
  {
    var es := Entries(ScenarioLines(urn)[1..]);
    assert es[0] == Some(Entry(LocationTok, "10.0.0.5")) by { LocationLine(); }
    assert es[1] == Some(Entry(UrnTok, urn)) by { UrnLine(urn); }
    assert es[2] == Some(Entry(NameTok, "MyPrinter")) by { NameLine(); }
    assert es[3] == Some(Entry(SerialTok, "SN123")) by { SerialLine(); }
  }

  lemma LocationLine()
    ensures Line(LocationToken, "10.0.0.5") != [] && IsTrimmed(Line(LocationToken, "10.0.0.5"))
    ensures '\n' !in Line(LocationToken, "10.0.0.5")
    ensures EntryOf(Line(LocationToken, "10.0.0.5")) == Some(Entry(LocationTok, "10.0.0.5"))
  {
    EntryOfLine(LocationToken, "10.0.0.5");
  }

  lemma UrnLine(urn: string)
    requires urn != [] && IsTrimmed(urn)
    ensures Line(UrnToken, urn) != [] && IsTrimmed(Line(UrnToken, urn))
    ensures '\n' !in urn ==> '\n' !in Line(UrnToken, urn)
    ensures EntryOf(Line(UrnToken, urn)) == Some(Entry(UrnTok, urn))
  {
    EntryOfLine(UrnToken, urn);
  }

  lemma NameLine()
    ensures Line(NameToken, "MyPrinter") != [] && IsTrimmed(Line(NameToken, "MyPrinter"))
    ensures '\n' !in Line(NameToken, "MyPrinter")
    ensures EntryOf(Line(NameToken, "MyPrinter")) == Some(Entry(NameTok, "MyPrinter"))
  {
    EntryOfLine(NameToken, "MyPrinter");
  }

  lemma SerialLine()
    ensures Line(SerialToken, "SN123") != [] && IsTrimmed(Line(SerialToken, "SN123"))
    ensures '\n' !in Line(SerialToken, "SN123")
    ensures EntryOf(Line(SerialToken, "SN123")) == Some(Entry(SerialTok, "SN123"))
  {
    EntryOfLine(SerialToken, "SN123");
  }

  /** The token loop over those entries records address, URN, name and serial, and no model. */
  lemma FoldOfScenario(family: Family, codec: AddrCodec, es: seq<Option<Entry>>, urn: string, ip: IpAddr)
    requires ScenarioEntries(es, urn)
    requires ParseAddr(codec, "10.0.0.5") == Some(ip)
    ensures Fold(family, codec, es)
            == Success(Fields(Some(urn), None, Some("MyPrinter"), Some(ip), Some("SN123")))
  {
    var f1 := NoFields.(location := Some(ip));
    var f2 := f1.(urn := Some(urn));
    var f3 := f2.(name := Some("MyPrinter"));
    assert es[..1][..0] == [];
    assert Fold(family, codec, es[..1]) == Success(f1);
    assert es[..2][..1] == es[..1];
    assert Fold(family, codec, es[..2]) == Success(f2);
    assert es[..3][..2] == es[..2];
    assert Fold(family, codec, es[..3]) == Success(f3);
    assert es[..3] == es[..|es| - 1];
  }

  /**
   * The scenario datagram parses to its address, name and serial, with no model code, when
   * its `NT` is the Bambu URN, and is rejected for its URN otherwise.
   */
  lemma ParseScenario(family: Family, codec: AddrCodec, urn: string, ip: IpAddr)
    requires urn != [] && IsTrimmed(urn) && '\n' !in urn
    requires ParseAddr(codec, "10.0.0.5") == Some(ip)
    ensures urn == BambuUrn ==>
            Parse(family, codec, Datagram(urn)) == ParsedOk(Announced(ip, None, Some("MyPrinter"), Some("SN123")))
    ensures urn != BambuUrn ==>
            Parse(family, codec, Datagram(urn)) == ParseRejected(WrongUrn(Some(urn)))
  {
    DatagramSplit(urn);
    EntriesOfScenario(urn);
    FoldOfScenario(family, codec, Entries(ScenarioLines(urn)[1..]), urn, ip);
  }

  /**
   * On a registry without "10.0.0.5", with a configuration for
   * "MyPrinter" and a client that can be created, the datagram registers one entry keyed
   * "10.0.0.5" with serial "SN123" and, lacking a model code, the model "Unknown" (the X1 Carbon
   * listener stores its fixed name). Sending it again is skipped, so no
   * second client is created and the registry keeps its size.
   */
  lemma ScenarioRegisters(ctx: Context, connect: ClientRequest -> bool,
                          printers: map<string, Handle>, ip: IpAddr)
    requires ParseAddr(ctx.codec, "10.0.0.5") == Some(ip) && ShowAddr(ctx.codec, ip) == "10.0.0.5"
    requires "10.0.0.5" !in printers
    requires "MyPrinter" in ctx.config
    requires connect(ClientRequest("10.0.0.5", ctx.config["MyPrinter"].accessCode, "SN123"))
    ensures Decide(ctx, connect, printers, Datagram(BambuUrn)).Registered?
    ensures Decide(ctx, connect, printers, Datagram(BambuUrn)).key == "10.0.0.5"
    ensures Decide(ctx, connect, printers, Datagram(BambuUrn)).handle.info
            == Info(Some("MyPrinter"), ip, None, Bambu,
                    Some(if ctx.family == BambuFamily then "Unknown" else X1CarbonName), Some("SN123"))
    ensures |After(printers, Decide(ctx, connect, printers, Datagram(BambuUrn)))| == |printers| + 1
    ensures Decide(ctx, connect, After(printers, Decide(ctx, connect, printers, Datagram(BambuUrn))),
                   Datagram(BambuUrn))
            == Skipped(AlreadyKnown("10.0.0.5"))
  {
    var payload := Datagram(BambuUrn);
    var a := Announced(ip, None, Some("MyPrinter"), Some("SN123"));
    ParseBambuScenario(ctx.family, ctx.codec, ip);
    assert Decide(ctx, connect, printers, payload) == Registered("10.0.0.5", HandleFor(ctx, a));
    ReannouncementIsNoOp(ctx, connect, printers, payload);
  }

  lemma ParseBambuScenario(family: Family, codec: AddrCodec, ip: IpAddr)
    requires ParseAddr(codec, "10.0.0.5") == Some(ip)
    ensures Parse(family, codec, Datagram(BambuUrn))
            == ParsedOk(Announced(ip, None, Some("MyPrinter"), Some("SN123")))
  {
    assert BambuUrn[0] == 'u' && BambuUrn[|BambuUrn| - 1] == '1';
    ParseScenario(family, codec, BambuUrn, ip);
  }

  /** An `NT` of "urn:other:device:1" is rejected, registry unchanged. */
  lemma ScenarioForeignUrn(ctx: Context, connect: ClientRequest -> bool,
                           printers: map<string, Handle>, ip: IpAddr)
    requires ParseAddr(ctx.codec, "10.0.0.5") == Some(ip)
    ensures Decide(ctx, connect, printers, Datagram("urn:other:device:1"))
            == Skipped(Rejected(WrongUrn(Some("urn:other:device:1"))))
    ensures After(printers, Decide(ctx, connect, printers, Datagram("urn:other:device:1"))) == printers
  {
    var urn := "urn:other:device:1";
    assert urn[0] == 'u' && urn[|urn| - 1] == '1';
    assert urn != BambuUrn by { assert |urn| != |BambuUrn|; }
    ParseScenario(ctx.family, ctx.codec, urn, ip);
  }
}
