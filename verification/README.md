# sysly message encoder, modelled in Dafny

This project models the message encoder of `sysly`, a small Rust client for
the system logging service. A `Syslog` client holds a facility, an optional
tag and a transport. Each logging call combines the client's facility with a
severity into the PRI value of section 6.2.1 of RFC 5424 (`facility | severity`).
It formats the line `"<PRI> TIMESTAMP MSG"` and hands that line to the transport.

Modules, bottom-up:

- `Options`: the `Option` type.
- `Codes`: the 20 facilities and 8 severities, with their discriminants and decoders back from numbers.
- `Bits`: bitwise or on unsigned integers, defined bit by bit, and the truncating cast to `u8`.
- `Pri`: the priority, its range, its decomposition and its decoder.
- `Decimal`: the decimal text that Rust's `{:?}` writes for a `u8`, and its parser.
- `LineFormat`: the line formatter, and a decoder that serves as its inverse.
- `Client`: the client record, the `udp`/`unix` defaults, the `tag`/`facility` setters, `log` and the eight severity wrappers.

The timestamp is an opaque string argument. The transport is its endpoint
plus the list of lines handed to `send`. The result of the send is an
argument, and `log` returns it unchanged.

The round-trip lemmas need a timestamp that contains no space, which is true
of RFC 3339 date-times. Under that condition, the formatted line and its
decoder are mutual inverses. With a space in the timestamp, two different messages can format to the
same line, so no decoder could invert it.

The stored tag is never written into the line, and the model keeps that
behaviour (`Client.LogIgnoresTag`). The line has no host, app-name, process
id or message id field and no version marker.

## Model

| member | source | states |
|---|---|---|
| Codes.Code | src/lib.rs:18-39 | every facility's discriminant is a multiple of 8 no greater than 184, and only LOCAL7 reaches 184 |
| Codes.Ordinal | src/lib.rs:41-50 | every severity's discriminant lies in 0..7, with EMERGENCY at 0 and DEBUG at 7 |
| Codes.FacilityOfCode | src/lib.rs:18-39 | a number decodes to a facility exactly when it is that facility's discriminant |
| Codes.SeverityOfOrdinal | src/lib.rs:41-50 | a number decodes to a severity exactly when it is at most 7, and then to the severity with that ordinal |
| Codes.CodesAreInjective | src/lib.rs:18-50 | distinct facilities have distinct codes, and distinct severities have distinct ordinals |
| Bits.AsU8 | src/lib.rs:162 | the `as u8` cast leaves every value below 256 unchanged |
| Bits.Or | src/lib.rs:162 | the or of two numbers is at least each of them and at most their sum |
| Bits.OrBit | src/lib.rs:162 | `Or` is bitwise: every bit of the result is set exactly when that bit is set in either operand |
| Bits.OrIdempotent | src/lib.rs:162 | or-ing a number with itself gives the number back, so `Or` is not addition |
| Bits.OrOfDisjointIsSum | src/lib.rs:162 | or-ing a multiple of 2^n with a number below 2^n equals their sum |
| Pri.Priority | src/lib.rs:161-163 | for every facility and severity, the bitwise or of the two codes equals facility code plus severity ordinal; it lies in [0, 191], is 191 only for LOCAL7 with DEBUG and 0 only for KERN with EMERGENCY; priority / 8 is the facility slot and priority % 8 the severity ordinal |
| Pri.DecodePriority | src/lib.rs:161-163 | a number decodes to a facility/severity pair exactly when it is the priority of that pair, so decoding inverts the priority |
| Pri.PriorityInjective | src/lib.rs:161-163 | two facility/severity pairs with the same priority are the same pair |
| Decimal.Render | src/lib.rs:157 | the priority's text is a non-empty digit string with no leading zero, of length 1 exactly for values below 10 |
| Decimal.ValueOfRender | src/lib.rs:157 | parsing the rendered decimal text gives back the number |
| Decimal.RenderOfValue | src/lib.rs:157 | every canonical digit string is the rendering of its value |
| Decimal.RenderInjective | src/lib.rs:157 | distinct numbers render to distinct texts |
| LineFormat.Line | src/lib.rs:156-158 | the line starts with '<', has the length of its parts plus four separator characters, and ends with the message verbatim |
| LineFormat.DecodeOfLine | src/lib.rs:156-158 | for a timestamp without a space, decoding a formatted line recovers facility, severity, timestamp and message |
| LineFormat.LineOfDecode | src/lib.rs:156-158 | every line the decoder accepts is exactly the line formatted from its decoding, so the format is "<" + decimal PRI + "> " + timestamp + " " + message |
| LineFormat.LineInjective | src/lib.rs:156-158 | two different messages whose timestamps have no space never format to the same line |
| LineFormat.LinePriorityInjective | src/lib.rs:156-158 | for any timestamp and message, equal lines were formatted at the same facility and severity |
| LineFormat.Local0InfoLine | src/lib.rs:171-174 | the crate's unit test `test_syslog_line`: LOCAL0 at INFO with message "yo" formats as "<134> " + timestamp + " yo", for any timestamp |
| Client.Send | src/lib.rs:52-66 | sending appends exactly the line to the transport's record, keeps the endpoint, and returns the outcome unchanged |
| Client.Udp | src/lib.rs:76-88 | a UDP client starts with facility USER, no tag, the given remote endpoint and nothing sent |
| Client.Unix | src/lib.rs:90-101 | a Unix-socket client starts with facility USER, no tag, the given path and nothing sent |
| Client.WithTag | src/lib.rs:103-109 | the tag setter makes the tag `Some(t)` and keeps facility and transport |
| Client.WithFacility | src/lib.rs:111-117 | the facility setter replaces only the facility and keeps tag and transport |
| Client.Log | src/lib.rs:119-122 | a call returns the transport's outcome, keeps the configuration, and appends the line for the current facility, the severity, timestamp and message |
| Client.Debug | src/lib.rs:124-126 | `debug` returns the send outcome, keeps configuration, endpoint and earlier lines, and adds exactly the line at the client's facility and DEBUG, which decodes to DEBUG for a timestamp without a space |
| Client.Info | src/lib.rs:128-130 | `info` returns the send outcome, keeps configuration, endpoint and earlier lines, and adds exactly the line at the client's facility and INFO, which decodes to INFO for a timestamp without a space |
| Client.Notice | src/lib.rs:132-134 | `notice` returns the send outcome, keeps configuration, endpoint and earlier lines, and adds exactly the line at the client's facility and NOTICE, which decodes to NOTICE for a timestamp without a space |
| Client.Warn | src/lib.rs:136-138 | `warn` returns the send outcome, keeps configuration, endpoint and earlier lines, and adds exactly the line at the client's facility and WARNING, which decodes to WARNING for a timestamp without a space |
| Client.Err | src/lib.rs:140-142 | `err` returns the send outcome, keeps configuration, endpoint and earlier lines, and adds exactly the line at the client's facility and ERROR, which decodes to ERROR for a timestamp without a space |
| Client.Critical | src/lib.rs:144-146 | `critical` returns the send outcome, keeps configuration, endpoint and earlier lines, and adds exactly the line at the client's facility and CRITICAL, which decodes to CRITICAL for a timestamp without a space |
| Client.Alert | src/lib.rs:148-150 | `alert` returns the send outcome, keeps configuration, endpoint and earlier lines, and adds exactly the line at the client's facility and ALERT, which decodes to ALERT for a timestamp without a space |
| Client.Emergency | src/lib.rs:152-154 | `emergency` returns the send outcome, keeps configuration, endpoint and earlier lines, and adds exactly the line at the client's facility and EMERGENCY, which decodes to EMERGENCY for a timestamp without a space |
| Client.LogSendsDecodableLine | src/lib.rs:119-122 | for a timestamp without a space, the line a call sends decodes to the client's facility, the call's severity, the timestamp and the message |
| Client.LogIsLoggedAt | src/lib.rs:119-122 | a call to `log` at a severity shows the caller exactly what the wrappers promise: same outcome, same configuration, earlier lines kept, one new line formatted and decoding at that severity |
| Client.LoggedAtDeterminesSeverity | src/lib.rs:124-154 | no call can satisfy the wrapper contract at two different severities, so each wrapper's contract fixes its own severity |
| Client.LogIgnoresTag | src/lib.rs:119-122 | clients that differ only in their tag send identical lines |
| Client.SettersLastWriteWins | src/lib.rs:103-117 | repeated setters keep the last value, the two setters commute, and setting the current facility changes nothing |
| Client.LogUsesLastFacility | src/lib.rs:111-122 | for a timestamp without a space, after chained facility setters the line a call sends decodes to the facility set last |
| Client.DefaultClientLine | src/lib.rs:83-87 | a fresh UDP client's info line has priority 14 (USER 8 plus INFO 6) and is the only line sent |

## Left out

- The socket I/O of the two transports (src/lib.rs:56-66): `send_to` and `write_line` are foreign calls. `Client.Send` only records the line, and the operating system's verdict is an argument.
- The bind and connect steps in `udp` and `unix`, and the panics when they fail (src/lib.rs:77-81, 91-95). These are I/O, and the model keeps only the default field values.
- `time::now()` and `Tm::rfc3339()` (src/lib.rs:120, 157): a clock read and a foreign formatter. The timestamp is an arbitrary string argument.
- The newline that `write_line` adds on the Unix stream: it belongs to the transport, not to the formatted line.
- Rust's move semantics for the transport in the setters: the model's records are values, so there is no ownership to transfer.
- src/main.rs, a demo binary that sends raw UDP datagrams.
