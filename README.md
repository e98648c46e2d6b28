# Bambu Lab printer discovery, modelled in Dafny

This project models the discovery half of the Bambu Lab network-printer support. There are two
listeners:

- the generic Bambu listener (`Bambu` in `src/network_printer/bambu.rs`);
- the X1 Carbon listener (`BambuX1Carbon` in `src/network_printer/bambu_x1_carbon.rs`).

Each listener receives UDP announcements on port 2021, which imitate an SSDP `NOTIFY`
advertisement. Each announcement is parsed into a handful of tokens and checked. A printer not
seen before is then registered in the `printers` map, keyed by its address string.

The project covers:

- the announcement parser;
- the printer registry and its `list` / `list_handles` snapshots;
- the vendor-code to model-name table (`BambuModel::from_code` and its `Display`);
- the `has_ams` flag.

The two listeners repeat the same loop almost verbatim. The model writes the loop once and
parameterises it by a `Family`:

- `BambuFamily` records `DevModel.bambu.com` and stores the resolved model name;
- `X1CarbonFamily` ignores that token and always stores "Bambu Lab X1 Carbon".

Modules:

- `Wrappers`: `Option` and `Result`.
- `Text`: what the parser uses from Rust's `str`:
  - `lines()` as a split at `'\n'` (`SplitLines`, with its inverse `Join`);
  - `trim()` over Unicode White_Space (`Trim`);
  - the blank-line filter (`NonBlank`);
  - `split_once` (`SplitOnce`).
- `Models`: the `BambuModel` enum, `from_code`, `Display`, and the inverse `Code` of `FromCode`.
- `Status`: the part of a pushed status that `has_ams` reads, and `HasAms`.
- `Announcement`: the parser of one decoded datagram. It has two halves:
  - a pure half: `Entries` turns the lines into entries (`EntryOf`, one per line), `Fold` folds them into `Fields`, `Parse` validates the result;
  - `ScanTokens`, the source's token loop over five mutable locals, proved equal to the fold.

  `LastValue`, `LastLocation` and `LastFields` say what the fold computes: the last value of each token wins.
- `Registry`: the registry itself:
  - `Decide` makes the decision for one datagram; its checks run in the source's order;
  - `After` gives the new map;
  - `RunAll` runs the `discover` loop over a stream;
  - the `Discovery` class holds the `printers` map. Its methods are `ProcessDatagram`, `Discover`, `List` and `ListHandles`.
- `Scenarios`: one concrete announcement carried end to end through the model:
  - it is built from its lines with `Join`, each line ending in `"\r"`;
  - it registers;
  - re-sending it is skipped;
  - with a foreign URN it is rejected.

The model follows the code in these places:

- **Unparsable `Location` value.** `expect("Bad IP")` panics, which ends the discovery task. The model therefore treats it as fatal (`Stopped(BadIp(..))`): the run stops there and nothing is inserted. It is not a skip.
- **`Client::new` failure.** The `?` returns the error from `discover`. This is fatal too (`Stopped(ClientFailed(..))`).
- **`recv` failure.** This ends the `while let Ok(..)` loop, and `discover` then returns `Ok(())`. In the model, the datagram stream simply ends with no fatal outcome.
- **`has_ams`.** It compares `ams_exist_bits` with the literal `"0"` only. Other all-zero spellings, such as `"00"`, count as true.

## Model

| member | source | states |
|---|---|---|
| Text.TrimStartSpec | src/network_printer/bambu.rs:90-98 | trim's left part keeps a suffix of the line; it drops only whitespace, and what remains does not start with whitespace |
| Text.TrimEndSpec | src/network_printer/bambu.rs:90-98 | trim's right part keeps a prefix of the line; it drops only whitespace, and what remains does not end with whitespace |
| Text.TrimSpec | src/network_printer/bambu.rs:137-138 | a trimmed string is a contiguous infix of the input, with only whitespace before and after it, and no whitespace at either end |
| Text.TrimEmpty | src/network_printer/bambu.rs:91-94 | a line trims to the empty string exactly when it is all whitespace |
| Text.TrimOfTrimmed | src/network_printer/bambu.rs:124-129 | trimming an already trimmed line changes nothing, so the loop's second trim and emptiness test never fire |
| Text.SplitLines | src/network_printer/bambu.rs:90 | the split at '\n' that stands for `lines()` always yields at least one piece; `"".lines()` yields none, and the blank filter makes the two agree |
| Text.SplitLinesSpec | src/network_printer/bambu.rs:90 | no piece contains a newline, and joining the pieces with '\n' gives back the payload |
| Text.JoinSplitLines | src/network_printer/bambu.rs:90 | splitting the join of newline-free lines gives back exactly those lines |
| Text.SplitLinesOfLine | src/network_printer/bambu.rs:90 | a newline-free string is a single line |
| Text.SplitLinesPrepend | src/network_printer/bambu.rs:90 | a newline-free first line followed by '\n' splits off as the first piece |
| Text.NonBlankSpec | src/network_printer/bambu.rs:90-98 | the filter keeps at most as many lines as it is given, and every kept line is non-empty and trimmed |
| Text.NonBlankAppend | src/network_printer/bambu.rs:90-98 | the filter works line by line and keeps the order: filtering a concatenation concatenates the results |
| Text.NonBlankSingle | src/network_printer/bambu.rs:91-97 | a single line is dropped when its trim is empty and otherwise kept as its trim |
| Text.NonBlankFirst | src/network_printer/bambu.rs:90-102 | after blank lines only, the first non-blank line comes out first, as its trim, followed by the filtered rest |
| Text.NonBlankEmpty | src/network_printer/bambu.rs:90-98 | the filter yields nothing exactly when every line is all whitespace |
| Text.JoinWhitespace | src/network_printer/bambu.rs:90-98 | a join of lines is all whitespace exactly when each line is |
| Text.BlankPayload | src/network_printer/bambu.rs:90-106 | a payload has no non-blank line exactly when it is all whitespace |
| Text.SplitOnceSpec | src/network_printer/bambu.rs:131-135 | `split_once` fails exactly when the separator is absent; otherwise it splits at the first separator, and the value keeps any later colons |
| Text.SplitOnceOf | src/network_printer/bambu.rs:131 | splitting a colon-free token, a colon and a value gives back that token and value |
| Models.FromCode | src/network_printer/bambu.rs:30-39 | a model is Unknown exactly when the code is not one of the five known codes, and then it carries the code unchanged |
| Models.CodeOfFromCode | src/network_printer/bambu.rs:30-39 | the code of a resolved model is the code it was resolved from, so `from_code` loses nothing |
| Models.FromCodeOfCode | src/network_printer/bambu.rs:30-39 | every model that `from_code` can produce is resolved back from its own code |
| Models.Display | src/network_printer/bambu.rs:42-54 | an Unknown model displays as its code, and every known model displays with the "Bambu Lab " prefix |
| Models.ResolveTable | src/network_printer/bambu.rs:30-54 | N1, N2S, C11, C12 and BL-P001 give the A1 mini, A1, P1P, P1S and X1 Carbon names; any other code displays as itself; the absent-code default displays as "Unknown" |
| Models.DisplayInjectiveOnKnown | src/network_printer/bambu.rs:44-51 | distinct known models have distinct names |
| Status.HasAms | src/network_printer/bambu.rs:249-263 | a status error is passed on unchanged; no status, no ams section or no bits give false; otherwise the result is whether the bits differ from "0" |
| Status.HasAmsOnlyWithBits | src/network_printer/bambu_x1_carbon.rs:209-223 | the flag is true exactly when there is a status with an ams section whose bits are present and not "0" |
| Announcement.TokenValueSpec | src/network_printer/bambu.rs:124-138 | a line gives no token/value pair exactly when its trimmed form has no colon; such a line is skipped and parsing goes on |
| Announcement.EntryOfSpec | src/network_printer/bambu.rs:131-138 | a line gives an entry exactly when its trim contains a colon; the entry is the trimmed text before the first colon, classified, and the trimmed rest, which may hold further colons |
| Announcement.FoldIsLastValue | src/network_printer/bambu.rs:142-150 | the fold fails exactly when some `Location` does not parse, and then it fails at the first such `Location`; otherwise each field holds the last value of its token |
| Announcement.FoldFailureStays | src/network_printer/bambu.rs:143 | after a bad `Location`, no later line changes the outcome |
| Announcement.FoldSkipsIgnored | src/network_printer/bambu.rs:148-149 | a colonless line or an unrecognised token leaves the fields exactly as if the line were absent |
| Announcement.X1CarbonFoldIsBambuFoldWithoutModel | src/network_printer/bambu_x1_carbon.rs:105-112 | the X1 Carbon parser gives the same fields as the Bambu parser, except that the model code is always absent |
| Announcement.FoldStep | src/network_printer/bambu.rs:124 | folding one more line is one more step |
| Announcement.AssignToken | src/network_printer/bambu.rs:142-150 | the token match assigns the recognised token's value to its local; `Location` first parses the value as an address and fails when it does not parse |
| Announcement.ScanTokens | src/network_printer/bambu.rs:115-151 | the imperative token loop over the five locals computes exactly the fold over the lines, including where it stops on a bad `Location` |
| Announcement.HeaderIsFirstNonBlank | src/network_printer/bambu.rs:100-109 | the header compared with `NOTIFY * HTTP/1.1` is the trim of the payload's first line that is not all whitespace, and the token loop reads the entries of the non-blank lines after it, in order |
| Announcement.ParseOutcome | src/network_printer/bambu.rs:100-169 | rejections, in order: no non-blank line; a first line that is not `NOTIFY * HTTP/1.1`; a bad `Location` (fatal); no address; an `NT` that is not the Bambu URN. An accepted announcement carries the last value of each token |
| Registry.ModelName | src/network_printer/bambu.rs:196-198 | the X1 Carbon listener stores its fixed name. The Bambu listener stores "Unknown" with no code, and otherwise the code's `Resolve` name, whose table `Models.ResolveTable` gives: the code itself for an unknown code, a "Bambu Lab " name for a known one |
| Registry.DecidePreservesWellFormed | src/network_printer/bambu.rs:187-218 | every entry stays keyed by its own address string and holds a configured hostname, no port, manufacturer Bambu, a serial and a model |
| Registry.HeaderRequired | src/network_printer/bambu.rs:100-113 | an all-whitespace payload, or a first line that is not the NOTIFY header, is rejected with that reason, and the registry is unchanged |
| Registry.AddressAndUrnRequired | src/network_printer/bambu.rs:153-169 | after the header, a bad `Location` is fatal. A missing address, or an `NT` that is not the Bambu URN, is rejected with the URN seen. The registry is unchanged unless the announcement parsed |
| Registry.KnownAddressIsNoOp | src/network_printer/bambu.rs:171-174 | an announcement whose address string is already a key is skipped as already known, and the registry is unchanged |
| Registry.ReannouncementIsNoOp | src/network_printer/bambu.rs:171-174 | re-sending a datagram that was just registered is skipped as already known, and the map size stays the same |
| Registry.NameAndConfigRequired | src/network_printer/bambu.rs:176-184 | a parsed announcement at a new address is skipped when it has no name or its name has no machine config, and the registry is unchanged |
| Registry.AcceptedEntry | src/network_printer/bambu.rs:187-218 | a registration adds exactly one new key, the printed last `Location`; the size grows by one and no other entry changes. The info holds the last name as hostname, that address, no port, manufacturer Bambu, the resolved model name and the last `USN` or "" |
| Registry.X1CarbonEntry | src/network_printer/bambu_x1_carbon.rs:149-178 | an X1 Carbon registration always has model "Bambu Lab X1 Carbon", whatever the datagram says. Its serial is the last `USN` or "", and its handle is an X1 Carbon printer |
| Registry.DecideKeepsEntries | src/network_printer/bambu.rs:171-218 | one datagram never removes or replaces an entry |
| Registry.RunKeepsEntries | src/network_printer/bambu.rs:82-219 | the loop over a stream never removes or replaces an entry |
| Registry.SettledStaysSkipped | src/network_printer/bambu.rs:153-184 | a datagram that was skipped or registered is skipped by every later registry that holds its result |
| Registry.RunSettles | src/network_printer/bambu.rs:82-219 | after a run that did not stop, every datagram of the stream is skipped by the final registry |
| Registry.RunOfSkipped | src/network_printer/bambu.rs:82-221 | a stream whose every datagram is skipped leaves the registry as it is and ends without a fatal outcome |
| Registry.ReplayIsNoOp | src/network_printer/bambu.rs:82-221 | replaying a stream that completed changes nothing |
| Registry.Discovery.constructor | src/network_printer/bambu.rs:62-67 | a new listener has the given configuration and an empty registry |
| Registry.Discovery.ProcessDatagram | src/network_printer/bambu.rs:87-218 | the imperative loop body returns the outcome that `Decide` gives, leaves the registry as `After` says, and keeps every entry well formed |
| Registry.Discovery.Discover | src/network_printer/bambu.rs:72-222 | the loop processes the datagrams in turn, stops at the first fatal outcome, and otherwise ends without one; the final registry and stop reason are those of `RunAll` |
| Registry.Discovery.ListHandles | src/network_printer/bambu.rs:232-234 | one handle per key, following some order of the keys that visits each key once, and the registry is not modified |
| Registry.Discovery.List | src/network_printer/bambu.rs:224-230 | one info per key, in some order of the keys that visits each key once, so the length is the map's size; the registry is not modified |
| Scenarios.TrimCarriageReturn | src/network_printer/bambu.rs:90-91 | the '\r' that the split at '\n' leaves on a line is trimmed away |
| Scenarios.TrimLeadingSpace | src/network_printer/bambu.rs:137-138 | the space after a colon is trimmed away |
| Scenarios.EntryOfLine | src/network_printer/bambu.rs:131-138 | a line `token: value` gives exactly that token and value |
| Scenarios.CrEnded | src/network_printer/bambu.rs:90 | ending each line in '\r' and adding the final empty piece gives one piece more than there are lines |
| Scenarios.NonBlankOfCrEnded | src/network_printer/bambu.rs:90-98 | the CR-ended lines of an announcement filter back to the lines themselves |
| Scenarios.RoundTripOfCrEnded | src/network_printer/bambu.rs:90-98 | a datagram whose lines each end in '\r' goes through `lines()`, trim and the blank filter to exactly those lines |
| Scenarios.DatagramSplit | src/network_printer/bambu.rs:90-98 | the example datagram's non-blank lines are its header and four token lines |
| Scenarios.HeaderLine | src/network_printer/bambu.rs:109 | the NOTIFY header is a non-empty, trimmed line without a newline |
| Scenarios.FoldOfScenario | src/network_printer/bambu.rs:124-151 | the example's token lines fold to its address, URN, name and serial, with no model code |
| Scenarios.ParseScenario | src/network_printer/bambu.rs:100-169 | the example announcement parses with the Bambu URN, and any other non-empty, trimmed, newline-free URN is rejected as that URN |
| Scenarios.ParseBambuScenario | src/network_printer/bambu.rs:142-161 | the example with the Bambu URN is accepted, with address, name and serial and no model code |
| Scenarios.ScenarioRegisters | src/network_printer/bambu.rs:171-218 | with a config for its name, the example registers under "10.0.0.5" with the expected info, the size grows by one, and re-sending it is skipped as already known |
| Scenarios.ScenarioForeignUrn | src/network_printer/bambu.rs:159-169 | the same announcement with a foreign URN is rejected and the registry is unchanged |

The X1 Carbon listener's copies of the header check, token loop, validation, registration, `list`
and `list_handles` are the same members with `family == X1CarbonFamily`:

- header check: src/network_printer/bambu_x1_carbon.rs:54-77;
- token loop: src/network_printer/bambu_x1_carbon.rs:87-113;
- validation: src/network_printer/bambu_x1_carbon.rs:115-146;
- registration, `list` and `list_handles`: src/network_printer/bambu_x1_carbon.rs:160-194.

## Left out

- Socket I/O:
  - the UDP bind on port 2021 and `recv` into the 1536-byte buffer are left out; the model takes the stream of received datagrams as a sequence;
  - a failing `recv` is the end of that sequence.
- `String::from_utf8_lossy` is left out; the model takes each payload as an already decoded string.
- `str::parse::<IpAddr>` and `IpAddr::to_string` are library code:
  - they are the `parse` and `show` fields of an `AddrCodec` parameter;
  - the addresses themselves are `bv32` / `bv128` values;
  - no canonical text format is assumed.
- Registration and the MQTT client:
  - `bambulabs::client::Client::new` is the `connect` parameter: whether creating the client succeeds for a host, access code and serial;
  - spawning its `run` task is left out;
  - the client itself is represented by the request it was created with.
- `BambuLabsConfig::get_machine_config` is a map from printer name to access code and slicer config.
- DashMap concurrency is left out. The registry is a plain `map` updated by one sequential loop, and snapshots are taken between datagrams.
- `List` and `ListHandles`: the order of DashMap iteration is unspecified. The model fixes no order and only promises some order of the keys that visits each key once.
- The `tracing` log lines have no effect on state and are left out.
- Not part of this model:
  - the printer commands and status queries of `BambuPrinter` other than `has_ams`;
  - the slicer (`src/slicer/orca.rs`).
- `Trim` uses the Unicode White_Space code points written out by value; no other Unicode processing is modelled.
- `lines()` also strips a trailing '\r' from each line and drops a final empty line. The model splits at '\n' only. The difference is invisible, because every line is then trimmed and blank lines are dropped.
- Status.HasAms: models only the `ams_exist_bits` field of the pushed status; the rest of `PushStatus` is left out.
