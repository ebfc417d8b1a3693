# rocketmq-rs: wire-frame codec and producer options, in Dafny

This project models two parts of a RocketMQ client library written in Rust.

1. **The remoting command codec.** A `RemoteCommand` is a header plus a body. `encode` writes it as a frame:

   - a 4-byte big-endian total length, equal to 4 + header length + body length;
   - a 4-byte big-endian header length;
   - the serialised header;
   - the body.

   `from_buffer` reads a frame back. `RemoteCommand::new` stamps each header with language `"OTHER"`, version 431 and an opaque id. The id is drawn from a process-wide counter.
2. **The producer configuration.** This covers the `PullStatus` / `PullResult` values and the `ProducerOptions` bundle with its defaults and chained setters. It also covers the fail-fast `Producer::with_options` constructor.

Files:

- `wrappers.dfy`: `Option` and `Result`.
- `big_endian.dfy`: bytes, Rust's `as i32` cast, and byteorder's big-endian `i32` write and read, with both round trips.
- `byte_io.dfy`: the `Vec<u8>` writer and the `std::io::Cursor` reader that `encode` and `from_buffer` drive, as classes with in-place state.
- `protocol.dfy`: `Header`, `RemoteCommand`, the opaque counter, `new`, `encode`, `from_buffer` and the module's round-trip test.
- `producer.dfy`: `PullStatus`, `PullResult`, `ProducerOptions`, `Producer::new` and `Producer::with_options`.

The header serialisation is `serde_json`, a foreign library. Every member that needs it takes it as two parameters: a serialiser `ser` and a parser `parse`. The round trip rests on one stated hypothesis, `HeaderCodec(ser, parse)`: parsing the serialisation of any header gives that header back.

Name-server construction is also passed in, as a function from resolver to `Result`. It performs network I/O in the library.

Each `unwrap` panic in `from_buffer` is modelled as a `FrameError` value. This includes the failed allocations of `vec![0; n]`.

## Model

| member | source | states |
|---|---|---|
| BigEndian.ToI32 | src/protocol.rs:51-52 | `as i32` gives an i32 congruent to its argument modulo 2^32, and equal to it when it already fits |
| BigEndian.EncodeI32 | src/protocol.rs:51-52 | writing an i32 produces exactly four bytes |
| BigEndian.DecodeEncodeI32 | src/protocol.rs:62-63 | reading back the four bytes written for any i32 gives that i32 |
| BigEndian.EncodeDecodeI32 | src/protocol.rs:62-63 | writing the i32 read from any four bytes reproduces those bytes, so the i32 codec is a bijection |
| ByteIo.ByteWriter.constructor | src/protocol.rs:47 | a new writer holds no bytes |
| ByteIo.ByteWriter.WriteI32 | src/protocol.rs:51-52 | appends the four big-endian bytes of the value and changes nothing else |
| ByteIo.ByteWriter.WriteAll | src/protocol.rs:53-55 | appends the given bytes |
| ByteIo.Cursor.constructor | src/protocol.rs:61 | a cursor starts at position 0 of its input |
| ByteIo.Cursor.ReadExact | src/protocol.rs:65 | with n bytes left, returns exactly the next n bytes and advances by n; otherwise fails with EOF and moves to the end |
| ByteIo.Cursor.ReadI32 | src/protocol.rs:62-63 | with 4 bytes left, returns the big-endian i32 they encode and advances by 4; otherwise fails with EOF |
| Protocol.OpaqueCounter.constructor | src/protocol.rs:11 | the counter starts at 0 with nothing issued |
| Protocol.OpaqueCounter.FetchAdd | src/protocol.rs:37 | returns the current value, adds 1, and records the value as issued |
| Protocol.OpaqueIdsIncrease | src/protocol.rs:11-37 | until the counter passes i32::MAX, the ids handed out, cast to i32, strictly increase in order of issue |
| Protocol.NewCommand | src/protocol.rs:31-44 | the header gets language "OTHER", version 431 and the counter's old value as its opaque id; code, flag, remark, fields and body are copied unchanged; the counter advances by exactly 1 |
| Protocol.NewCommandsInOrder | src/protocol.rs:31-44 | two commands built one after the other get strictly increasing opaque ids, and on a new counter the first two get ids 0 and 1 |
| Protocol.Encode | src/protocol.rs:46-58 | the output is the frame of the serialised header and the body |
| Protocol.FrameLayout | src/protocol.rs:49-57 | a frame is 8 + header bytes + body bytes long; the header bytes come next, then the body and nothing after it (so an empty body ends the frame right after the header); when no cast wraps, bytes 0..4 read as 4 + header length + body length and bytes 4..8 read as the header length |
| Protocol.FromBuffer | src/protocol.rs:60-81 | the method's result equals the decoding function `Decode` on the same input |
| Protocol.ReadBody | src/protocol.rs:67-80 | with the cursor just after the header, it reads `length - 4 - header_len` body bytes when that is positive, gives an empty body when it is 0, and fails when it is negative or when bytes are missing; this is the body stage of `Decode`; the cursor stays valid, advances by exactly the body length after a full read, is left in place when nothing is read, and moves to the end on a short read |
| Protocol.DecodeEncode | src/protocol.rs:46-81 | decoding the frame of any command gives that command back, even when other bytes follow; this needs the header codec hypothesis and a total length that fits in i32 |
| Protocol.DecodeReadsFrame | src/protocol.rs:60-81 | every successful decode read a well-formed frame: the input starts with the frame of header bytes that parse to the decoded header, followed by the decoded body |
| Protocol.DecodeCases | src/protocol.rs:62-76 | decoding fails with fewer than 8 bytes, with fewer header bytes than the header length declares, when length - 4 - header_len is negative, and with fewer body bytes than that difference; a difference of 0 gives an empty body |
| Protocol.RoundTripTest | src/protocol.rs:89-98 | the module's test: the command with code 10, remark "remark", fields {messageId: 123, offset: 456} and body "Hello World" decodes back to itself after encoding |
| Producer.Discriminant | src/producer/mod.rs:13-21 | every pull status has a discriminant in 0..4 |
| Producer.StatusOf | src/producer/mod.rs:13-21 | a status with discriminant d exists exactly when 0 <= d < 5 |
| Producer.DiscriminantsAreExact | src/producer/mod.rs:15-21 | the five statuses and the discriminants 0..4 correspond one to one |
| Producer.ProducerOptions.constructor | src/producer/mod.rs:53-68 | the defaults: round-robin selector, 3 s timeout, 4 queues, create-topic key "TBW102", HTTP resolver named "DEFAULT" |
| Producer.ProducerOptions.SetSendMsgTimeout | src/producer/mod.rs:70-73 | replaces only the timeout and returns the same object |
| Producer.ProducerOptions.SetDefaultTopicQueueNums | src/producer/mod.rs:75-78 | replaces only the queue count, for any value, and returns the same object |
| Producer.ProducerOptions.SetCreateTopicKey | src/producer/mod.rs:80-83 | replaces only the create-topic key and returns the same object |
| Producer.ProducerOptions.SetResolver | src/producer/mod.rs:85-88 | installs the given resolver, changes nothing else, and returns the same object |
| Producer.ProducerOptions.SetNameServer | src/producer/mod.rs:90-96 | installs a passthrough resolver over the addresses with an HTTP "DEFAULT" fallback, changes nothing else, and returns the same object |
| Producer.ProducerOptions.SetNameServerDomain | src/producer/mod.rs:98-104 | installs an HTTP resolver named "DEFAULT" with the given domain, changes nothing else, and returns the same object |
| Producer.ChainSetters | src/producer/mod.rs:70-104 | chained setters act on one object in order, and the last write to a field wins |
| Producer.Producer.WithOptions | src/producer/mod.rs:119-127 | returns the name-server error, and no producer, exactly when the name server cannot be built over the options' resolver; on success the producer holds the given group and the options' value, and the options object is unchanged |
| Producer.Producer.New | src/producer/mod.rs:115-117 | `with_options` over the defaults: fails exactly when the default HTTP resolver's name server fails, and otherwise holds default options |

## Left out

- `serde_json` header encoding: it is a foreign library. It is a pair of parameters with the round-trip hypothesis `HeaderCodec`. Whether `to_vec` can fail is not modelled; it is treated as total.
- Atomic memory ordering and the `static mut` global behind `GLOBAL_OPAQUE`: concurrency is out of scope. The counter is an explicit object updated sequentially.
- Protocol.OpaqueIdsIncrease: strict increase is stated only while the counter is at most i32::MAX + 1. Beyond that the `as i32` cast wraps, as `ToI32` models. The 64-bit wrap-around of `AtomicIsize` itself is not modelled.
- Protocol.DecodeEncode: the round trip is stated only when 4 + header length + body length fits in i32. Longer frames have their length fields wrapped by `as i32`.
- Protocol.RoundTripTest: requires that the serialised test header leaves the total length within i32. The real JSON is about a hundred bytes, but the serialiser is abstract.
- `from_buffer` panics are error values, and the model does not say which kind of panic each one is:
  - A negative header length fails when `vec!` is asked for a buffer that size.
  - A negative `length - 4 - header_len` can arise in two ways:
    - When `0 <= length < 4 + header_len`, a debug build panics on the subtraction overflow. A release build wraps the result to a huge `usize`, and allocating the body buffer then fails.
    - When `length` is negative, `length as usize` sign-extends to a value near 2^64, so the subtraction does not overflow in either build. The resulting `body_len` is huge, and `vec![0; body_len]` panics with capacity overflow.
    - In each case the model reports `BodyLengthUnderflow`.
  - Allocating a large but feasible buffer is assumed to succeed, and the read then fails if bytes are missing. This applies to the header buffer (`header_len` up to 2^31 - 1) and to the body buffer. It is why those cases are reported as `TruncatedHeader` and `TruncatedBody`.
- `usize` is assumed to be 64 bits wide.
- The `fmt::Debug` impls: they are formatting only.
- The `InnerProducer` methods: they are `unimplemented!()` in the source.
- `Client`, `ClientOptions`, `NameServer`, `HttpResolver`, `PassthroughResolver`, `RoundRobinQueueSelector` and the crate `Error`: their code is not part of this model. They appear as tags or small records. A resolver's behaviour, including its network I/O, is not modelled.
- `Duration`: it is a natural number of milliseconds.
- Queue-count validation: `set_default_topic_queue_nums` does none, and neither does the model: any count, zero included, is stored.
- Ownership of the options: `with_options` moves its `ProducerOptions` into the producer. The model stores their value, so later setter calls on the caller's object cannot reach the producer. The move itself is not modelled: the caller's object stays usable.
