/**
 * The announcement parser: the part of the `discover` loop body that turns one decoded datagram
 * into the fields of a device announcement, before the registry is consulted. The frame
 * imitates an SSDP NOTIFY, but only the checks below are made.
 */
module Announcement {
  import opened Wrappers
  import opened Text

  /** The first non-blank line every accepted datagram starts with. */
  const NotifyHeader: string := "NOTIFY * HTTP/1.1"

  /** `BAMBU_URN` and `BAMBU_X1_CARBON_URN`, which are the same string. */
  const BambuUrn: string := "urn:bambulab-com:device:3dprinter:1"

  const LocationToken: string := "Location"
  const ModelToken: string := "DevModel.bambu.com"
  const NameToken: string := "DevName.bambu.com"
  const SerialToken: string := "USN"
  const UrnToken: string := "NT"

  /**
   * The two listeners: `Bambu` (any Bambu Lab printer, records the model code) and
   * `BambuX1Carbon` (the same parser without the model-code token).
   */
  datatype Family = BambuFamily | X1CarbonFamily

  /** `std::net::IpAddr`. */
  datatype IpAddr = V4(v4: bv32) | V6(v6: bv128)

  /**
   * The address library the parser calls: `str::parse::<IpAddr>` and `IpAddr::to_string`.
   * Their definitions are not part of this model.
   */
  datatype AddrCodec = AddrCodec(parse: string -> Option<IpAddr>, show: IpAddr -> string)

  /** `str::parse::<IpAddr>` on a `Location` value. */
  function ParseAddr(codec: AddrCodec, text: string): Option<IpAddr> {
    codec.parse(text)
  }

  /** `IpAddr::to_string`, the registry key. */
  function ShowAddr(codec: AddrCodec, ip: IpAddr): string {
    codec.show(ip)
  }

  /** The mutable locals of the token loop: `urn`, `model_code`, `name`, `ip`, `serial`. */
  datatype Fields = Fields(
    urn: Option<string>,
    modelCode: Option<string>,
    name: Option<string>,
    location: Option<IpAddr>,
    serial: Option<string>)

  const NoFields: Fields := Fields(None, None, None, None, None)

  /** The tokens the `match token` distinguishes; `OtherTok` is every other token. */
  datatype Token = LocationTok | ModelTok | NameTok | SerialTok | UrnTok | OtherTok

  function Classify(token: string): Token {
    if token == LocationToken then LocationTok
    else if token == ModelToken then ModelTok
    else if token == NameToken then NameTok
    else if token == SerialToken then SerialTok
    else if token == UrnToken then UrnTok
    else OtherTok
  }

  /** Whether a listener records a token; every other token is ignored. */
  predicate Recorded(family: Family, token: Token) {
    token != OtherTok && (token == ModelTok ==> family == BambuFamily)
  }

  /**
   * A line as `token: value`: the trimmed line split at its FIRST colon, both sides trimmed
   * (so the value may contain colons); `None` for a blank line or a line without a colon.
   */
  function TokenValue(line: string): Option<(string, string)> {
    var l := Trim(line);
    if l == [] then None
    else match SplitOnce(l, ':')
      case None => None
      case Some((token, rest)) => Some((Trim(token), Trim(rest)))
  }

  /** A line is skipped exactly when its trimmed text has no colon (a blank line has none). */
  lemma TokenValueSpec(line: string)
    ensures TokenValue(line).None? <==> ':' !in Trim(line)
  {
    SplitOnceSpec(Trim(line), ':');
  }

  /** A classified `token: value` line. */
  datatype Entry = Entry(token: Token, value: string)

  function EntryOf(line: string): Option<Entry> {
    match TokenValue(line)
    case None => None
    case Some((token, rest)) => Some(Entry(Classify(token), rest))
  }

  /**
   * A line gives an entry exactly when its trim has a colon; the entry is then the trimmed part
   * before the FIRST colon, classified, and the trimmed rest, which may contain colons.
   */
  lemma EntryOfSpec(line: string)
    ensures EntryOf(line).None? <==> ':' !in Trim(line)
    ensures EntryOf(line).Some? ==>
            exists a, b :: Trim(line) == a + [':'] + b && ':' !in a
                           && EntryOf(line).value == Entry(Classify(Trim(a)), Trim(b))
  {
    SplitOnceSpec(Trim(line), ':');
    if EntryOf(line).Some? {
      var (a, b) := SplitOnce(Trim(line), ':').value;
      assert Trim(line) == a + [':'] + b && ':' !in a;
    }
  }

  /** The lines of the loop, each split and classified. */
  function Entries(lines: seq<string>): (es: seq<Option<Entry>>)
    ensures |es| == |lines|
    ensures forall i :: 0 <= i < |lines| ==> es[i] == EntryOf(lines[i])
  {
    seq(|lines|, i requires 0 <= i < |lines| => EntryOf(lines[i]))
  }

  /** The arms of `match token`: record the value of a recognised token, ignore the rest. */
  function Record(family: Family, codec: AddrCodec, f: Fields, e: Entry): Result<Fields, string> {
    match e.token
    case LocationTok =>
      var parsed := ParseAddr(codec, e.value);
      if parsed.None? then Failure(e.value) else Success(f.(location := parsed))
    case ModelTok => if family == BambuFamily then Success(f.(modelCode := Some(e.value))) else Success(f)
    case NameTok => Success(f.(name := Some(e.value)))
    case SerialTok => Success(f.(serial := Some(e.value)))
    case UrnTok => Success(f.(urn := Some(e.value)))
    case OtherTok => Success(f)
  }

  /**
   * One iteration of the token loop. A `Location` whose value is not an address makes the
   * source panic (`expect("Bad IP")`) on that line: here that is `Failure` with the offending
   * value, after which no line is read.
   */
  function Step(family: Family, codec: AddrCodec, r: Result<Fields, string>, e: Option<Entry>): Result<Fields, string> {
    if r.Failure? || e.None? then r else Record(family, codec, r.value, e.value)
  }

  /** The token loop as a left fold of `Step`. */
  function Fold(family: Family, codec: AddrCodec, es: seq<Option<Entry>>): Result<Fields, string>
    decreases |es|
  {
    if es == [] then Success(NoFields)
    else Step(family, codec, Fold(family, codec, es[..|es| - 1]), es[|es| - 1])
  }

  /** The token loop over the lines after the header. */
  function Scan(family: Family, codec: AddrCodec, lines: seq<string>): Result<Fields, string> {
    Fold(family, codec, Entries(lines))
  }

  /** The value of the last entry carrying `token`, if any. */
  function LastValue(es: seq<Option<Entry>>, token: Token): Option<string>
    decreases |es|
  {
    if es == [] then None
    else
      var e := es[|es| - 1];
      if e.Some? && e.value.token == token then Some(e.value.value)
      else LastValue(es[..|es| - 1], token)
  }

  /** A `Location` entry whose value the address parser refuses. */
  predicate IsBadLocation(codec: AddrCodec, e: Option<Entry>) {
    e.Some? && e.value.token == LocationTok && ParseAddr(codec, e.value.value).None?
  }

  /** The address the last `Location` entry gives, parsed. */
  function LastLocation(codec: AddrCodec, es: seq<Option<Entry>>): Option<IpAddr> {
    var v := LastValue(es, LocationTok);
    if v.None? then None else ParseAddr(codec, v.value)
  }

  /** Every recorded token at the value of its last entry. */
  function LastFields(family: Family, codec: AddrCodec, es: seq<Option<Entry>>): Fields {
    Fields(
      LastValue(es, UrnTok),
      if family == BambuFamily then LastValue(es, ModelTok) else None,
      LastValue(es, NameTok),
      LastLocation(codec, es),
      LastValue(es, SerialTok))
  }

  /**
   * What the token loop computes, stated without the loop: it fails exactly when some
   * `Location` value does not parse, and then with the first such value; otherwise every
   * recorded field holds the value of the LAST entry carrying its token (a repeated token keeps
   * its last value), and only the generic listener records the model code.
   */
  lemma {:induction false} FoldIsLastValue(family: Family, codec: AddrCodec, es: seq<Option<Entry>>)
    ensures Fold(family, codec, es).Failure? <==>
            exists i :: 0 <= i < |es| && IsBadLocation(codec, es[i])
    ensures Fold(family, codec, es).Failure? ==>
            exists i :: 0 <= i < |es| && IsBadLocation(codec, es[i])
                        && es[i].value.value == Fold(family, codec, es).error
                        && forall j :: 0 <= j < i ==> !IsBadLocation(codec, es[j])
    ensures Fold(family, codec, es).Success? ==>
            Fold(family, codec, es).value == LastFields(family, codec, es)
    decreases |es|
  {
    if es != [] {
      var init := es[..|es| - 1];
      FoldIsLastValue(family, codec, init);
      assert forall i :: 0 <= i < |init| ==> init[i] == es[i];
      if Fold(family, codec, init).Failure? {
        var i :| 0 <= i < |init| && IsBadLocation(codec, init[i])
                 && init[i].value.value == Fold(family, codec, init).error
                 && forall j :: 0 <= j < i ==> !IsBadLocation(codec, init[j]);
        assert IsBadLocation(codec, es[i]);
      } else if IsBadLocation(codec, es[|es| - 1]) {
      } else {
        assert forall i :: 0 <= i < |es| ==> !IsBadLocation(codec, es[i]);
      }
    }
  }

  /** A failure of the loop on a prefix is the failure of the loop on the whole. */
  lemma {:induction false} FoldFailureStays(family: Family, codec: AddrCodec, es: seq<Option<Entry>>, k: nat)
    requires k <= |es| && Fold(family, codec, es[..k]).Failure?
    ensures Fold(family, codec, es) == Fold(family, codec, es[..k])
    decreases |es| - k
  {
    if k < |es| {
      assert es[..k + 1][..k] == es[..k];
      FoldFailureStays(family, codec, es, k + 1);
    } else {
      assert es[..k] == es;
    }
  }

  /**
   * An entry the listener does not record (a blank or colonless line, or an unrecognised
   * token) can be dropped from anywhere in the loop's input without changing the result.
   */
  lemma {:induction false} FoldSkipsIgnored(family: Family, codec: AddrCodec,
                                            a: seq<Option<Entry>>, e: Option<Entry>, b: seq<Option<Entry>>)
    requires e.None? || !Recorded(family, e.value.token)
    ensures Fold(family, codec, a + [e] + b) == Fold(family, codec, a + b)
    decreases |b|
  {
    if b == [] {
      assert (a + [e])[..|a|] == a;
      assert a + [e] + b == a + [e];
      assert a + b == a;
    } else {
      var b' := b[..|b| - 1];
      FoldSkipsIgnored(family, codec, a, e, b');
      assert (a + [e] + b)[..|a + [e] + b| - 1] == a + [e] + b';
      assert (a + b)[..|a + b| - 1] == a + b';
    }
  }

  /** A scan result with the model code erased. */
  function WithoutModel(r: Result<Fields, string>): Result<Fields, string> {
    if r.Failure? then r else Success(r.value.(modelCode := None))
  }

  /**
   * The X1 Carbon listener runs the same loop as the generic one, except that the model-code
   * token is ignored: its result is the generic result with the model code removed.
   */
  lemma {:induction false} X1CarbonFoldIsBambuFoldWithoutModel(codec: AddrCodec, es: seq<Option<Entry>>)
    ensures Fold(X1CarbonFamily, codec, es) == WithoutModel(Fold(BambuFamily, codec, es))
    decreases |es|
  {
    if es != [] {
      X1CarbonFoldIsBambuFoldWithoutModel(codec, es[..|es| - 1]);
    }
  }

  /** One more entry through the loop. */
  lemma FoldStep(family: Family, codec: AddrCodec, es: seq<Option<Entry>>, i: nat)
    requires i < |es|
    ensures Fold(family, codec, es[..i + 1]) == Step(family, codec, Fold(family, codec, es[..i]), es[i])
  {
    assert es[..i + 1][..i] == es[..i];
  }

  /** The arms of `match token` on the five locals: assign the value of a recognised token. */
  method AssignToken(family: Family, codec: AddrCodec, f: Fields, token: Token, rest: string)
    returns (r: Result<Fields, string>)
    ensures r == Record(family, codec, f, Entry(token, rest))
  {
    var urn, modelCode, name, ip, serial := f.urn, f.modelCode, f.name, f.location, f.serial;
    match token {
      case LocationTok =>
        var parsed := ParseAddr(codec, rest);
        if parsed.None? {
          return Failure(rest);
        }
        ip := parsed;
      case ModelTok =>
        if family == BambuFamily {
          modelCode := Some(rest);
        }
      case NameTok =>
        name := Some(rest);
      case SerialTok =>
        serial := Some(rest);
      case UrnTok =>
        urn := Some(rest);
      case OtherTok =>
    }
    r := Success(Fields(urn, modelCode, name, ip, serial));
  }

  /**
   * The token loop as the source writes it: mutable locals overwritten line by line, stopping
   * at the first `Location` whose value is not an address.
   */
  method ScanTokens(family: Family, codec: AddrCodec, lines: seq<string>) returns (r: Result<Fields, string>)
    ensures r == Scan(family, codec, lines)
  {
    var fields := NoFields;
    ghost var es := Entries(lines);
    var i := 0;
    while i < |lines|
      invariant 0 <= i <= |lines|
      invariant Fold(family, codec, es[..i]) == Success(fields)
    {
      FoldStep(family, codec, es, i);
      var split := TokenValue(lines[i]);
      if split.Some? {
        var (token, rest) := split.value;
        var recorded := AssignToken(family, codec, fields, Classify(token), rest);
        if recorded.Failure? {
          FoldFailureStays(family, codec, es, i + 1);
          return recorded;
        }
        fields := recorded.value;
      }
      i := i + 1;
    }
    assert es[..i] == es;
    r := Success(fields);
  }

  /** Why a datagram is not an announcement of this listener's kind. */
  datatype Rejection =
    | NoLines                       // no non-blank line at all ("Bad UPnP")
    | NotNotify(header: string)     // first non-blank line is not the NOTIFY header
    | NoAddress                     // no `Location` line
    | WrongUrn(urn: Option<string>) // `NT` missing or not the Bambu URN

  /** A validated announcement: address present and URN matched; the rest still optional. */
  datatype Announced = Announced(
    ip: IpAddr,
    modelCode: Option<string>,
    name: Option<string>,
    serial: Option<string>)

  /** The announcement a validated set of fields gives. */
  function AnnouncedOf(f: Fields): Announced
    requires f.location.Some?
  {
    Announced(f.location.value, f.modelCode, f.name, f.serial)
  }

  datatype Parsed =
    | ParsedOk(announced: Announced)
    | ParseRejected(why: Rejection)
    | BadLocation(text: string)     // the source panics here

  /**
   * The checks of the loop body up to the URN test, in the source's order: a non-blank line,
   * the NOTIFY header, the token loop, a `Location`, the URN.
   */
  function Parse(family: Family, codec: AddrCodec, payload: string): Parsed {
    var lines := NonBlank(SplitLines(payload));
    if lines == [] then ParseRejected(NoLines)
    else if lines[0] != NotifyHeader then ParseRejected(NotNotify(lines[0]))
    else match Scan(family, codec, lines[1..])
      case Failure(bad) => BadLocation(bad)
      case Success(f) =>
        if f.location.None? then ParseRejected(NoAddress)
        else if f.urn != Some(BambuUrn) then ParseRejected(WrongUrn(f.urn))
        else ParsedOk(AnnouncedOf(f))
  }

  /** The entries the token loop reads: those of the non-blank lines after the header. */
  function Body(payload: string): seq<Option<Entry>> {
    var lines := NonBlank(SplitLines(payload));
    if lines == [] then [] else Entries(lines[1..])
  }

  /** The first non-blank line, if any. */
  function Header(payload: string): Option<string> {
    var lines := NonBlank(SplitLines(payload));
    if lines == [] then None else Some(lines[0])
  }

  /**
   * The header is the first line of the payload that is not all whitespace, trimmed, and the
   * token loop reads the entries of the non-blank lines after it, in order.
   */
  lemma HeaderIsFirstNonBlank(payload: string, j: nat)
    requires j < |SplitLines(payload)|
    requires forall i :: 0 <= i < j ==> AllWhitespace(SplitLines(payload)[i])
    requires !AllWhitespace(SplitLines(payload)[j])
    ensures Header(payload) == Some(Trim(SplitLines(payload)[j]))
    ensures Body(payload) == Entries(NonBlank(SplitLines(payload)[j + 1..]))
  {
    NonBlankFirst(SplitLines(payload), j);
  }

  /**
   * The parser's verdict in terms of the datagram's text: rejected when it is all whitespace
   * or its first non-blank line is not the header; with the header, it stops at a bad
   * `Location` value, and otherwise it accepts exactly when the last `Location` gives an
   * address and the last `NT` is the Bambu URN, with the last value of each other token.
   */
  lemma ParseOutcome(family: Family, codec: AddrCodec, payload: string)
    ensures AllWhitespace(payload) <==> Header(payload).None?
    ensures Header(payload).None? ==> Parse(family, codec, payload) == ParseRejected(NoLines)
    ensures Header(payload).Some? && Header(payload).value != NotifyHeader
            ==> Parse(family, codec, payload) == ParseRejected(NotNotify(Header(payload).value))
    ensures Header(payload) == Some(NotifyHeader) ==>
            (Parse(family, codec, payload).BadLocation? <==>
             exists i :: 0 <= i < |Body(payload)| && IsBadLocation(codec, Body(payload)[i]))
    ensures Header(payload) == Some(NotifyHeader) ==>
            (Parse(family, codec, payload).ParsedOk? <==>
             && (forall i :: 0 <= i < |Body(payload)| ==> !IsBadLocation(codec, Body(payload)[i]))
             && LastLocation(codec, Body(payload)).Some?
             && LastValue(Body(payload), UrnTok) == Some(BambuUrn))
    ensures Parse(family, codec, payload).ParsedOk? ==>
            && LastFields(family, codec, Body(payload)).location.Some?
            && Parse(family, codec, payload).announced == AnnouncedOf(LastFields(family, codec, Body(payload)))
  {
    BlankPayload(payload);
    FoldIsLastValue(family, codec, Body(payload));
  }
}
