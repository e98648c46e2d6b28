/**
 * The device registry of one listener (`Bambu` or `BambuX1Carbon`): the `discover` loop body
 * from the parsed announcement onwards, the loop itself, and the `list` / `list_handles`
 * snapshots. The registry is the `printers` map from address string to handle.
 */
module Registry {
  import opened Wrappers
  import opened Text
  import opened Models
  import opened Announcement

  /** The per-printer configuration found by name: MQTT access code and slicer settings. */
  datatype MachineConfig = MachineConfig(accessCode: string, slicerConfig: string)

  /** The arguments of `bambulabs::client::Client::new`: address string, access code, serial. */
  datatype ClientRequest = ClientRequest(host: string, accessCode: string, serial: string)

  /** `NetworkPrinterManufacturer`, of which these listeners only produce `Bambu`. */
  datatype Manufacturer = Bambu

  /** `NetworkPrinterInfo`. */
  datatype Info = Info(
    hostname: Option<string>,
    ip: IpAddr,
    port: Option<int>,
    manufacturer: Manufacturer,
    model: Option<string>,
    serial: Option<string>)

  /**
   * The capability object a handle is bound to (`BambuPrinter` or `BambuX1CarbonPrinter`):
   * which printer type, the client it was created with and its slicer configuration.
   */
  datatype Printer = Printer(family: Family, client: ClientRequest, slicerConfig: string)

  /** `NetworkPrinterHandle`. */
  datatype Handle = Handle(info: Info, printer: Printer)

  /**
   * What a listener is built with: which of the two it is, `get_machine_config` as a map from
   * printer name to configuration, and the address library.
   */
  datatype Context = Context(family: Family, config: map<string, MachineConfig>, codec: AddrCodec)

  /** Why a datagram leaves the registry alone while the loop goes on. */
  datatype Skip =
    | Rejected(why: Rejection)   // not a valid announcement
    | AlreadyKnown(key: string)  // its address is registered already
    | NoName                     // no `DevName.bambu.com`
    | NoConfig(name: string)     // no machine configuration for the name

  /** Why a datagram ends the `discover` loop. */
  datatype Fatal =
    | BadIp(location: string)            // `expect("Bad IP")` panics
    | ClientFailed(request: ClientRequest) // `Client::new(..)?` returns the error

  datatype Outcome =
    | Registered(key: string, handle: Handle)
    | Skipped(skip: Skip)
    | Stopped(fatal: Fatal)

  const X1CarbonName: string := "Bambu Lab X1 Carbon"

  /**
   * The stored model name: the generic listener resolves the model code, or shows "Unknown"
   * when there is none; the X1 Carbon listener always stores the X1 Carbon name.
   */
  function ModelName(family: Family, modelCode: Option<string>): (name: string)
    ensures family == X1CarbonFamily ==> name == X1CarbonName
    ensures family == BambuFamily && modelCode.None? ==> name == "Unknown"
    ensures family == BambuFamily && modelCode.Some? && !IsKnownCode(modelCode.value)
            ==> name == modelCode.value
    ensures family == BambuFamily && modelCode.Some? ==> name == Resolve(modelCode.value)
    ensures family == BambuFamily && modelCode.Some? && IsKnownCode(modelCode.value)
            ==> |name| > 10 && name[..10] == "Bambu Lab "
  {
    if family == X1CarbonFamily then X1CarbonName
    else if modelCode.None? then Display(Unknown("Unknown"))
    else Resolve(modelCode.value)
  }

  /** The client a new registration creates. */
  function RequestFor(ctx: Context, a: Announced): ClientRequest
    requires a.name.Some? && a.name.value in ctx.config
  {
    ClientRequest(ShowAddr(ctx.codec, a.ip), ctx.config[a.name.value].accessCode, a.serial.GetOr(""))
  }

  /** The handle a new registration stores. */
  function HandleFor(ctx: Context, a: Announced): Handle
    requires a.name.Some? && a.name.value in ctx.config
  {
    var request := RequestFor(ctx, a);
    Handle(
      Info(a.name, a.ip, None, Bambu, Some(ModelName(ctx.family, a.modelCode)), Some(request.serial)),
      Printer(ctx.family, request, ctx.config[a.name.value].slicerConfig))
  }

  /**
   * The `discover` loop body on one decoded datagram, for the registry `printers` and the
   * outcome `connect` of creating a client: after parsing, in the source's order, an address
   * already registered is skipped, then a missing name, then a missing configuration; a
   * failing client creation ends the loop; otherwise the new handle is registered.
   */
  function Decide(ctx: Context, connect: ClientRequest -> bool, printers: map<string, Handle>,
                  payload: string): Outcome
  {
    match Parse(ctx.family, ctx.codec, payload)
    case BadLocation(text) => Stopped(BadIp(text))
    case ParseRejected(why) => Skipped(Rejected(why))
    case ParsedOk(a) =>
      var key := ShowAddr(ctx.codec, a.ip);
      if key in printers then Skipped(AlreadyKnown(key))
      else if a.name.None? then Skipped(NoName)
      else if a.name.value !in ctx.config then Skipped(NoConfig(a.name.value))
      else if !connect(RequestFor(ctx, a)) then Stopped(ClientFailed(RequestFor(ctx, a)))
      else Registered(key, HandleFor(ctx, a))
  }

  /** The registry after an outcome: one insertion for `Registered`, no change otherwise. */
  function After(printers: map<string, Handle>, o: Outcome): map<string, Handle> {
    if o.Registered? then printers[o.key := o.handle] else printers
  }

  /** What every registered entry satisfies: it is exactly what a registration stores. */
  ghost predicate EntryValid(ctx: Context, key: string, h: Handle) {
    && h.info.hostname.Some?
    && h.info.hostname.value in ctx.config
    && ShowAddr(ctx.codec, h.info.ip) == key
    && h.info.port.None?
    && h.info.manufacturer == Bambu
    && h.info.serial.Some?
    && h.info.model.Some?
    && (ctx.family == X1CarbonFamily ==> h.info.model == Some(X1CarbonName))
    && h.printer == Printer(
         ctx.family,
         ClientRequest(key, ctx.config[h.info.hostname.value].accessCode, h.info.serial.value),
         ctx.config[h.info.hostname.value].slicerConfig)
  }

  /** The registry invariant: every entry is keyed by its own printed address, and well formed. */
  ghost predicate WellFormed(ctx: Context, printers: map<string, Handle>) {
    forall k :: k in printers ==> EntryValid(ctx, k, printers[k])
  }

  /** Processing a datagram keeps the registry invariant. */
  lemma DecidePreservesWellFormed(ctx: Context, connect: ClientRequest -> bool,
                                  printers: map<string, Handle>, payload: string)
    requires WellFormed(ctx, printers)
    ensures WellFormed(ctx, After(printers, Decide(ctx, connect, printers, payload)))
  {
  }

  /**
   * A datagram that is all whitespace, or whose first non-blank line is not the NOTIFY
   * header, is rejected and changes nothing, whatever else it holds.
   */
  lemma HeaderRequired(ctx: Context, connect: ClientRequest -> bool,
                       printers: map<string, Handle>, payload: string)
    ensures AllWhitespace(payload) ==>
            Decide(ctx, connect, printers, payload) == Skipped(Rejected(NoLines))
    ensures Header(payload).Some? && Header(payload).value != NotifyHeader ==>
            Decide(ctx, connect, printers, payload)
            == Skipped(Rejected(NotNotify(Header(payload).value)))
    ensures Header(payload) != Some(NotifyHeader) ==>
            After(printers, Decide(ctx, connect, printers, payload)) == printers
  {
    ParseOutcome(ctx.family, ctx.codec, payload);
  }

  /**
   * With the header, a `Location` value that is not an address stops the loop (the source's
   * panic); without any bad value, a missing `Location` or an `NT` other than the Bambu URN
   * rejects the datagram. None of these changes the registry.
   */
  lemma AddressAndUrnRequired(ctx: Context, connect: ClientRequest -> bool,
                              printers: map<string, Handle>, payload: string)
    requires Header(payload) == Some(NotifyHeader)
    ensures (exists i :: 0 <= i < |Body(payload)| && IsBadLocation(ctx.codec, Body(payload)[i]))
            ==> Decide(ctx, connect, printers, payload).Stopped?
                && Decide(ctx, connect, printers, payload).fatal.BadIp?
    ensures (forall i :: 0 <= i < |Body(payload)| ==> !IsBadLocation(ctx.codec, Body(payload)[i]))
            && LastLocation(ctx.codec, Body(payload)).None?
            ==> Decide(ctx, connect, printers, payload) == Skipped(Rejected(NoAddress))
    ensures (forall i :: 0 <= i < |Body(payload)| ==> !IsBadLocation(ctx.codec, Body(payload)[i]))
            && LastLocation(ctx.codec, Body(payload)).Some?
            && LastValue(Body(payload), UrnTok) != Some(BambuUrn)
            ==> Decide(ctx, connect, printers, payload)
                == Skipped(Rejected(WrongUrn(LastValue(Body(payload), UrnTok))))
    ensures !Parse(ctx.family, ctx.codec, payload).ParsedOk? ==>
            After(printers, Decide(ctx, connect, printers, payload)) == printers
  {
    ParseOutcome(ctx.family, ctx.codec, payload);
    FoldIsLastValue(ctx.family, ctx.codec, Body(payload));
  }

  /** An announcement for an address already registered is skipped (idempotent re-announcement). */
  lemma KnownAddressIsNoOp(ctx: Context, connect: ClientRequest -> bool,
                           printers: map<string, Handle>, payload: string)
    requires Parse(ctx.family, ctx.codec, payload).ParsedOk?
    requires ShowAddr(ctx.codec, Parse(ctx.family, ctx.codec, payload).announced.ip) in printers
    ensures Decide(ctx, connect, printers, payload)
            == Skipped(AlreadyKnown(ShowAddr(ctx.codec, Parse(ctx.family, ctx.codec, payload).announced.ip)))
    ensures After(printers, Decide(ctx, connect, printers, payload)) == printers
  {
  }

  /**
   * Sending an accepted datagram again is a no-op: the second time its address is known, so
   * the registry, and its size, stay as after the first.
   */
  lemma ReannouncementIsNoOp(ctx: Context, connect: ClientRequest -> bool,
                             printers: map<string, Handle>, payload: string)
    requires Decide(ctx, connect, printers, payload).Registered?
    ensures Decide(ctx, connect, After(printers, Decide(ctx, connect, printers, payload)), payload)
            == Skipped(AlreadyKnown(Decide(ctx, connect, printers, payload).key))
    ensures |After(After(printers, Decide(ctx, connect, printers, payload)),
                   Decide(ctx, connect, After(printers, Decide(ctx, connect, printers, payload)), payload))|
            == |After(printers, Decide(ctx, connect, printers, payload))|
  {
  }

  /** A new address without a name, or whose name has no configuration, is skipped. */
  lemma NameAndConfigRequired(ctx: Context, connect: ClientRequest -> bool,
                              printers: map<string, Handle>, payload: string)
    requires Parse(ctx.family, ctx.codec, payload).ParsedOk?
    requires ShowAddr(ctx.codec, Parse(ctx.family, ctx.codec, payload).announced.ip) !in printers
    ensures LastValue(Body(payload), NameTok).None? ==>
            Decide(ctx, connect, printers, payload) == Skipped(NoName)
    ensures LastValue(Body(payload), NameTok).Some?
            && LastValue(Body(payload), NameTok).value !in ctx.config ==>
            Decide(ctx, connect, printers, payload)
            == Skipped(NoConfig(LastValue(Body(payload), NameTok).value))
    ensures (LastValue(Body(payload), NameTok).None?
             || LastValue(Body(payload), NameTok).value !in ctx.config) ==>
            After(printers, Decide(ctx, connect, printers, payload)) == printers
  {
    ParseOutcome(ctx.family, ctx.codec, payload);
  }

  /**
   * An accepted datagram adds exactly one key, its printed address, and changes no other
   * entry. The stored info has the last `DevName.bambu.com` as hostname, the last `USN` (or
   * "") as serial, no port, manufacturer Bambu and the resolved model name.
   */
  lemma AcceptedEntry(ctx: Context, connect: ClientRequest -> bool,
                      printers: map<string, Handle>, payload: string)
    requires Decide(ctx, connect, printers, payload).Registered?
    ensures Decide(ctx, connect, printers, payload).key !in printers
    ensures After(printers, Decide(ctx, connect, printers, payload)).Keys
            == printers.Keys + {Decide(ctx, connect, printers, payload).key}
    ensures |After(printers, Decide(ctx, connect, printers, payload))| == |printers| + 1
    ensures forall k :: k in printers ==>
            After(printers, Decide(ctx, connect, printers, payload))[k] == printers[k]
    ensures LastLocation(ctx.codec, Body(payload)).Some?
    ensures Decide(ctx, connect, printers, payload).key
            == ShowAddr(ctx.codec, LastLocation(ctx.codec, Body(payload)).value)
    ensures Decide(ctx, connect, printers, payload).handle.info == Info(
              LastValue(Body(payload), NameTok),
              LastLocation(ctx.codec, Body(payload)).value,
              None,
              Bambu,
              Some(ModelName(ctx.family, LastFields(ctx.family, ctx.codec, Body(payload)).modelCode)),
              Some(LastValue(Body(payload), SerialTok).GetOr("")))
    ensures LastValue(Body(payload), NameTok).Some?
  {
    ParseOutcome(ctx.family, ctx.codec, payload);
  }

  /**
   * The X1 Carbon listener stores the X1 Carbon model name whatever the datagram says, and the
   * last `USN` (or "") as serial.
   */
  lemma X1CarbonEntry(ctx: Context, connect: ClientRequest -> bool,
                      printers: map<string, Handle>, payload: string)
    requires ctx.family == X1CarbonFamily
    requires Decide(ctx, connect, printers, payload).Registered?
    ensures Decide(ctx, connect, printers, payload).handle.info.model == Some(X1CarbonName)
    ensures Decide(ctx, connect, printers, payload).handle.info.serial
            == Some(LastValue(Body(payload), SerialTok).GetOr(""))
    ensures Decide(ctx, connect, printers, payload).handle.printer.family == X1CarbonFamily
  {
    AcceptedEntry(ctx, connect, printers, payload);
  }

  /** The result of running the listener over a stream of datagrams. */
  datatype Run = Run(printers: map<string, Handle>, stop: Option<Fatal>)

  /**
   * The `discover` loop over the datagrams received before `recv` fails: each is processed in
   * turn until one is fatal. Entries are only ever added, never replaced or removed.
   */
  function RunAll(ctx: Context, connect: ClientRequest -> bool, printers: map<string, Handle>,
                  datagrams: seq<string>): Run
    decreases |datagrams|
  {
    if datagrams == [] then Run(printers, None)
    else
      var o := Decide(ctx, connect, printers, datagrams[0]);
      if o.Stopped? then Run(printers, Some(o.fatal))
      else RunAll(ctx, connect, After(printers, o), datagrams[1..])
  }

  /** One datagram only adds an entry: every key already known keeps its handle. */
  lemma DecideKeepsEntries(ctx: Context, connect: ClientRequest -> bool,
                           printers: map<string, Handle>, payload: string)
    ensures printers.Keys <= After(printers, Decide(ctx, connect, printers, payload)).Keys
    ensures forall k :: k in printers ==>
            After(printers, Decide(ctx, connect, printers, payload))[k] == printers[k]
  {
    var o := Decide(ctx, connect, printers, payload);
    if o.Registered? {
      assert o.key !in printers;
    }
  }

  /** A run only adds entries: every key of the starting registry keeps its handle. */
  lemma {:induction false} RunKeepsEntries(ctx: Context, connect: ClientRequest -> bool,
                                           printers: map<string, Handle>, datagrams: seq<string>)
    ensures printers.Keys <= RunAll(ctx, connect, printers, datagrams).printers.Keys
    ensures forall k :: k in printers ==> RunAll(ctx, connect, printers, datagrams).printers[k] == printers[k]
    decreases |datagrams|
  {
    if datagrams != [] {
      var o := Decide(ctx, connect, printers, datagrams[0]);
      if !o.Stopped? {
        DecideKeepsEntries(ctx, connect, printers, datagrams[0]);
        RunKeepsEntries(ctx, connect, After(printers, o), datagrams[1..]);
      }
    }
  }

  /**
   * A datagram that was skipped or registered is skipped for every registry that holds what
   * it left behind: its address is known, or it is rejected independently of the registry.
   */
  lemma SettledStaysSkipped(ctx: Context, connect: ClientRequest -> bool,
                            m: map<string, Handle>, m': map<string, Handle>, payload: string)
    requires !Decide(ctx, connect, m, payload).Stopped?
    requires After(m, Decide(ctx, connect, m, payload)).Keys <= m'.Keys
    ensures Decide(ctx, connect, m', payload).Skipped?
  {
  }

  /** Every datagram of the stream is skipped for the registry `m`. */
  ghost predicate AllSkipped(ctx: Context, connect: ClientRequest -> bool,
                             m: map<string, Handle>, datagrams: seq<string>)
    decreases |datagrams|
  {
    datagrams == []
    || (Decide(ctx, connect, m, datagrams[0]).Skipped? && AllSkipped(ctx, connect, m, datagrams[1..]))
  }

  /** After a run that did not stop, every datagram of the stream is skipped. */
  lemma {:induction false} RunSettles(ctx: Context, connect: ClientRequest -> bool,
                                      printers: map<string, Handle>, datagrams: seq<string>)
    requires RunAll(ctx, connect, printers, datagrams).stop.None?
    ensures AllSkipped(ctx, connect, RunAll(ctx, connect, printers, datagrams).printers, datagrams)
    decreases |datagrams|
  {
    if datagrams != [] {
      var o := Decide(ctx, connect, printers, datagrams[0]);
      var next := After(printers, o);
      var q := RunAll(ctx, connect, printers, datagrams).printers;
      assert !o.Stopped? && q == RunAll(ctx, connect, next, datagrams[1..]).printers;
      RunSettles(ctx, connect, next, datagrams[1..]);
      RunKeepsEntries(ctx, connect, next, datagrams[1..]);
      SettledStaysSkipped(ctx, connect, printers, q, datagrams[0]);
    }
  }

  /** A run over datagrams that are all skipped changes nothing. */
  lemma {:induction false} RunOfSkipped(ctx: Context, connect: ClientRequest -> bool,
                                        printers: map<string, Handle>, datagrams: seq<string>)
    requires AllSkipped(ctx, connect, printers, datagrams)
    ensures RunAll(ctx, connect, printers, datagrams) == Run(printers, None)
    decreases |datagrams|
  {
    if datagrams != [] {
      RunOfSkipped(ctx, connect, printers, datagrams[1..]);
    }
  }

  /**
   * Re-sending a whole stream that ran without a fatal datagram is a no-op: every announcement
   * in it is already settled, so the registry stays as it was.
   */
  lemma ReplayIsNoOp(ctx: Context, connect: ClientRequest -> bool,
                     printers: map<string, Handle>, datagrams: seq<string>)
    requires RunAll(ctx, connect, printers, datagrams).stop.None?
    ensures RunAll(ctx, connect, RunAll(ctx, connect, printers, datagrams).printers, datagrams)
            == Run(RunAll(ctx, connect, printers, datagrams).printers, None)
  {
    RunSettles(ctx, connect, printers, datagrams);
    RunOfSkipped(ctx, connect, RunAll(ctx, connect, printers, datagrams).printers, datagrams);
  }

  /** `order` lists every key of `m` once. */
  ghost predicate IsOrderOf(m: map<string, Handle>, order: seq<string>) {
    && (forall i, j :: 0 <= i < j < |order| ==> order[i] != order[j])
    && (forall k :: k in m <==> k in order)
  }

  /** A listener (`Bambu` or `BambuX1Carbon`) with its registry of discovered printers. */
  class Discovery {
    const ctx: Context
    var printers: map<string, Handle>

    ghost predicate Valid()
      reads this
    {
      WellFormed(ctx, printers)
    }

    /** `Bambu::new` / `BambuX1Carbon::new`: an empty registry. */
    constructor (ctx: Context)
      ensures this.ctx == ctx && printers == map[] && Valid()
    {
      this.ctx := ctx;
      printers := map[];
    }

    /** The `discover` loop body on one decoded datagram. */
    method ProcessDatagram(connect: ClientRequest -> bool, payload: string) returns (o: Outcome)
      requires Valid()
      modifies this
      ensures Valid()
      ensures o == Decide(ctx, connect, old(printers), payload)
      ensures printers == After(old(printers), o)
    {
      var lines := NonBlank(SplitLines(payload));
      if lines == [] {
        return Skipped(Rejected(NoLines));
      }
      var header := lines[0];
      if header != NotifyHeader {
        return Skipped(Rejected(NotNotify(header)));
      }
      var scanned := ScanTokens(ctx.family, ctx.codec, lines[1..]);
      if scanned.Failure? {
        return Stopped(BadIp(scanned.error));
      }
      var f := scanned.value;
      if f.location.None? {
        return Skipped(Rejected(NoAddress));
      }
      var ip := f.location.value;
      if f.urn != Some(BambuUrn) {
        return Skipped(Rejected(WrongUrn(f.urn)));
      }
      var key := ShowAddr(ctx.codec, ip);
      if key in printers {
        return Skipped(AlreadyKnown(key));
      }
      if f.name.None? {
        return Skipped(NoName);
      }
      var name := f.name.value;
      if name !in ctx.config {
        return Skipped(NoConfig(name));
      }
      var config := ctx.config[name];
      var serial := f.serial.GetOr("");
      var request := ClientRequest(key, config.accessCode, serial);
      if !connect(request) {
        return Stopped(ClientFailed(request));
      }
      var info := Info(Some(name), ip, None, Bambu, Some(ModelName(ctx.family, f.modelCode)), Some(serial));
      var handle := Handle(info, Printer(ctx.family, request, config.slicerConfig));
      printers := printers[key := handle];
      o := Registered(key, handle);
    }

    /**
     * `discover` after the socket is bound: processes the datagrams received before `recv`
     * fails, in order, and returns the fatal outcome that ended it early, if any (`None` is
     * the source's `Ok(())`).
     */
    method Discover(connect: ClientRequest -> bool, datagrams: seq<string>) returns (stop: Option<Fatal>)
      requires Valid()
      modifies this
      ensures Valid()
      ensures Run(printers, stop) == RunAll(ctx, connect, old(printers), datagrams)
    {
      var i := 0;
      while i < |datagrams|
        invariant 0 <= i <= |datagrams|
        invariant Valid()
        invariant RunAll(ctx, connect, old(printers), datagrams)
                  == RunAll(ctx, connect, printers, datagrams[i..])
      {
        assert datagrams[i..][1..] == datagrams[i + 1..];
        var o := ProcessDatagram(connect, datagrams[i]);
        if o.Stopped? {
          return Some(o.fatal);
        }
        i := i + 1;
      }
      return None;
    }

    /** `list_handles`: one handle per registered address, in unspecified order. */
    method ListHandles() returns (handles: seq<Handle>, ghost order: seq<string>)
      ensures IsOrderOf(printers, order)
      ensures |handles| == |order| == |printers|
      ensures forall i :: 0 <= i < |order| ==> order[i] in printers && handles[i] == printers[order[i]]
    {
      var remaining := printers.Keys;
      handles, order := [], [];
      while remaining != {}
        invariant remaining <= printers.Keys
        invariant forall k :: k in printers ==> (k in remaining <==> k !in order)
        invariant forall i, j :: 0 <= i < j < |order| ==> order[i] != order[j]
        invariant |handles| == |order| && |order| + |remaining| == |printers|
        invariant forall i :: 0 <= i < |order| ==> order[i] in printers && handles[i] == printers[order[i]]
        decreases |remaining|
      {
        var k :| k in remaining;
        handles, order := handles + [printers[k]], order + [k];
        remaining := remaining - {k};
      }
    }

    /** `list`: one info per registered address, in unspecified order. */
    method List() returns (infos: seq<Info>, ghost order: seq<string>)
      ensures IsOrderOf(printers, order)
      ensures |infos| == |order| == |printers|
      ensures forall i :: 0 <= i < |order| ==> order[i] in printers && infos[i] == printers[order[i]].info
    {
      var remaining := printers.Keys;
      infos, order := [], [];
      while remaining != {}
        invariant remaining <= printers.Keys
        invariant forall k :: k in printers ==> (k in remaining <==> k !in order)
        invariant forall i, j :: 0 <= i < j < |order| ==> order[i] != order[j]
        invariant |infos| == |order| && |order| + |remaining| == |printers|
        invariant forall i :: 0 <= i < |order| ==> order[i] in printers && infos[i] == printers[order[i]].info
        decreases |remaining|
      {
        var k :| k in remaining;
        infos, order := infos + [printers[k].info], order + [k];
        remaining := remaining - {k};
      }
    }
  }
}
