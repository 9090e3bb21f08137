# nvim-oxi: command ranges and keymap options, in Dafny

This project models two small pieces of nvim-oxi, the Rust bindings to Neovim's API.

- **`CommandRange`** is the range a user command accepts. It has three forms: the current line, the whole file, or a line count.
  - Parsing reads a string. `"."` gives the current line and `"%"` gives the whole file. Anything `u32::from_str` accepts gives a count. Anything else is rejected with an error that names the accepted forms.
  - Emission is a separate function, and it is deliberately not the inverse of parsing. `CurrentLine` is written as the newtype variant `"CurrentLine"` whose payload is the boolean `true`, never as `"."`. `WholeFile` is written as the unit variant named `"%"`. `Count(n)` is written as the newtype variant `"Count"` that carries the integer `n`.
- **`SetKeymapOpts`** holds the options for `Buffer::set_keymap`.
  - A builder stages the eight optional settings one setter call at a time. Each setter returns the same builder.
  - `build()` fills every unset option with `None`.
  - The finished options are lowered into `KeyDict_keymap`, a record of eight dynamic objects in a fixed order that Neovim reads.

Files:
- `wrappers.dfy`: `Option` and `Result`.
- `objects.dfy`: the dynamic `Object` values that lowering produces. It also holds the conversions from `Option<T>` to `Object` and their inverses.
- `command_range.dfy`: module `CommandRanges`. It covers `u32::from_str`, the visitor, the derived serializer, and the lemmas about parsing after emission.
- `set_keymap.dfy`: module `SetKeymap`. It covers the options, the builder class, the replay semantics of setter calls, and the lowering together with its inverse.

The builder is a class. Its fields have the layout derive_builder generates: `Option<Option<T>>`, where `None` means "never set". Each setter changes only its own field and the ghost `history` of setter calls. The invariant `Valid()` says that every staged value is the value of the last setter call for that option. The pure function `BuildFrom` replays a history on the default options. The last-write-wins, commute and lowering lemmas are stated about `BuildFrom`.

Two details of the code are easy to misread:
- `Count(n)` is emitted as a newtype variant carrying the integer, not as decimal text. The `deserialize_with` attribute on `Count` has no effect, because `Deserialize` is written by hand.
- The integer form is whatever `u32::from_str` accepts. That includes one leading `+` and leading zeros. It excludes `-`, the empty string and values above 4294967295. `IsU32Literal` states exactly that.

## Model

| member | source | states |
|---|---|---|
| `Objects.FromOptionBool` | nvim-oxi/src/api/opts/set_keymap.rs:71-77 | an absent flag becomes `Nil`; a present flag becomes the boolean object holding it |
| `Objects.FromOptionString` | nvim-oxi/src/api/opts/set_keymap.rs:70 | an absent description becomes `Nil`; a present one becomes the string object holding it |
| `Objects.FromOptionLuaFn` | nvim-oxi/src/api/opts/set_keymap.rs:69 | an absent callback becomes `Nil`; a present one becomes a Lua reference to the same registry entry |
| `Objects.ToOptionBool` | nvim-oxi/src/api/opts/set_keymap.rs:71-77 | reference inverse of this encoding, used to prove lowering loses nothing: decoding accepts exactly `Nil` and booleans, and whatever it returns encodes back to the same object |
| `Objects.ToOptionString` | nvim-oxi/src/api/opts/set_keymap.rs:70 | reference inverse of this encoding, used to prove lowering loses nothing: decoding accepts exactly `Nil` and strings, and whatever it returns encodes back to the same object |
| `Objects.ToOptionLuaFn` | nvim-oxi/src/api/opts/set_keymap.rs:69 | reference inverse of this encoding, used to prove lowering loses nothing: decoding accepts exactly `Nil` and Lua references, and whatever it returns encodes back to the same object |
| `Objects.EncodingRoundTrips` | nvim-oxi/src/api/opts/set_keymap.rs:69-77 | decoding after encoding gives back the same optional value, for all three option types |
| `CommandRanges.AccumulateIsValue` | nvim-oxi/src/api/types/command_range.rs:42 | the checked left-to-right digit loop succeeds exactly when every character is a digit and the value fits in a u32; stopping early on overflow changes no outcome |
| `CommandRanges.ParseU32` | nvim-oxi/src/api/types/command_range.rs:42 | `u32::from_str` accepts exactly an optional `+` followed by one or more ASCII digits whose value is at most 4294967295, and it returns that value |
| `CommandRanges.VisitStr` | nvim-oxi/src/api/types/command_range.rs:33-52 | `CurrentLine` if and only if the string is `"."`; `WholeFile` if and only if it is `"%"`; `Count(n)` if and only if it is a u32 literal of value `n`; every other string is an invalid-value error carrying the string and the text `".", "%" or an integer` |
| `CommandRanges.Deserialize` | nvim-oxi/src/api/types/command_range.rs:19-56 | only string content can succeed, and strings go to `visit_str`; any other content is an invalid-type error with the same expected text |
| `CommandRanges.Emit` | nvim-oxi/src/api/types/command_range.rs:7-16 | `CurrentLine` is emitted as newtype variant 0 `"CurrentLine"` with payload `true` (the `"."` rename applies only to deserializing); `WholeFile` is emitted as unit variant 1 `"%"`; `Count(n)` is emitted as newtype variant 2 `"Count"` carrying `n` itself, not its text |
| `CommandRanges.EmitThenParse` | nvim-oxi/src/api/types/command_range.rs:9-39 | reading an emitted range back gives that range for `WholeFile` and for no other range |
| `CommandRanges.CurrentLineIsAsymmetric` | nvim-oxi/src/api/types/command_range.rs:59-63 | `"."` parses to `CurrentLine`, but `CurrentLine` is emitted as a variant carrying `true` and never as `"."`, and reading it back is refused as an invalid type |
| `CommandRanges.AcceptedExamples` | nvim-oxi/src/api/types/command_range.rs:41-44 | `"42"`, `"+7"` and `"007"` parse to counts 42, 7 and 7 |
| `CommandRanges.LargestCountAccepted` | nvim-oxi/src/api/types/command_range.rs:41-44 | `"4294967295"`, the largest u32, parses to that count |
| `CommandRanges.OverflowRejected` | nvim-oxi/src/api/types/command_range.rs:41-51 | `"4294967296"`, one more than the largest u32, is rejected |
| `CommandRanges.RejectedExamples` | nvim-oxi/src/api/types/command_range.rs:48-51 | the empty string, a lone `+`, `"-1"`, `"-0"`, `"++1"` and `"abc"` are rejected |
| `SetKeymap.DefaultOpts` | nvim-oxi/src/api/opts/set_keymap.rs:7-8 | the default options have every option unset |
| `SetKeymap.Apply` | nvim-oxi/src/api/opts/set_keymap.rs:12-31 | a setter call makes its own option `Some(value)` and leaves every other option as it was |
| `SetKeymap.LastValue` | nvim-oxi/src/api/opts/set_keymap.rs:47 | an option has no value exactly when no call in the history set it; otherwise the value is the one stored by a call for that option after which no call set it again |
| `SetKeymap.BuildFromIsLastValue` | nvim-oxi/src/api/opts/set_keymap.rs:7-31 | after any sequence of setter calls, each built option is the value of the last call for it, or `None` if it was never set |
| `SetKeymap.BuildFromSnoc` | nvim-oxi/src/api/opts/set_keymap.rs:43-49 | one more setter call applies on top of the options the earlier calls build |
| `SetKeymap.LastWriteWins` | nvim-oxi/src/api/opts/set_keymap.rs:13-31 | setting the same option twice builds the same options as setting it only to the second value |
| `SetKeymap.SettersCommute` | nvim-oxi/src/api/opts/set_keymap.rs:12-31 | setter calls for different options build the same options in either order |
| `SetKeymap.ReplayDetermines` | nvim-oxi/src/api/opts/set_keymap.rs:7-31 | options that agree with the last setter call for every option are exactly the options the history builds |
| `SetKeymap.OptsExtensional` | nvim-oxi/src/api/opts/set_keymap.rs:9-31 | two option values agreeing on all eight options are equal |
| `SetKeymap.SetKeymapOptsBuilder.constructor` | nvim-oxi/src/api/opts/set_keymap.rs:35-39 | a new builder has all eight fields unset and an empty history, and it builds the default options |
| `SetKeymap.SetKeymapOptsBuilder.Build` | nvim-oxi/src/api/opts/set_keymap.rs:7-8 | building only reads the builder; each option is the staged value or `None`; on a valid builder the result is the replay of its setter calls |
| `SetKeymap.SetKeymapOptsBuilder.Callback` | nvim-oxi/src/api/opts/set_keymap.rs:43-49 | stores `Some(Some(fun))`, changes no other field, returns the same builder, and the built options differ only in `callback` |
| `SetKeymap.SetKeymapOptsBuilder.Desc` | nvim-oxi/src/api/opts/set_keymap.rs:12-13 | stores `Some(Some(value))` in `desc` only and returns the same builder; the built options differ only in `desc` |
| `SetKeymap.SetKeymapOptsBuilder.Expr` | nvim-oxi/src/api/opts/set_keymap.rs:15-16 | stores `Some(Some(value))` in `expr` only and returns the same builder; the built options differ only in `expr` |
| `SetKeymap.SetKeymapOptsBuilder.Noremap` | nvim-oxi/src/api/opts/set_keymap.rs:18-19 | stores `Some(Some(value))` in `noremap` only and returns the same builder; the built options differ only in `noremap` |
| `SetKeymap.SetKeymapOptsBuilder.Nowait` | nvim-oxi/src/api/opts/set_keymap.rs:21-22 | stores `Some(Some(value))` in `nowait` only and returns the same builder; the built options differ only in `nowait` |
| `SetKeymap.SetKeymapOptsBuilder.Script` | nvim-oxi/src/api/opts/set_keymap.rs:24-25 | stores `Some(Some(value))` in `script` only and returns the same builder; the built options differ only in `script` |
| `SetKeymap.SetKeymapOptsBuilder.Silent` | nvim-oxi/src/api/opts/set_keymap.rs:27-28 | stores `Some(Some(value))` in `silent` only and returns the same builder; the built options differ only in `silent` |
| `SetKeymap.SetKeymapOptsBuilder.Unique` | nvim-oxi/src/api/opts/set_keymap.rs:30-31 | stores `Some(Some(value))` in `unique` only and returns the same builder; the built options differ only in `unique` |
| `SetKeymap.Lower` | nvim-oxi/src/api/opts/set_keymap.rs:65-78 | each record field is the encoding of the option of the same name alone; a field is `Nil` exactly when its option is unset |
| `SetKeymap.LiftLower` | nvim-oxi/src/api/opts/set_keymap.rs:65-78 | lowering loses nothing: the options read back from the record are the options lowered |
| `SetKeymap.LowerLift` | nvim-oxi/src/api/opts/set_keymap.rs:65-78 | every record that reads back as some options is the lowering of those options |
| `SetKeymap.LowerInjective` | nvim-oxi/src/api/opts/set_keymap.rs:65-78 | different options lower to different records |
| `SetKeymap.LayoutOfLowered` | nvim-oxi/src/api/opts/set_keymap.rs:51-63 | the record has eight fields in the order callback, desc, expr, noremap, nowait, script, silent, unique, and each holds its own option's encoding |
| `SetKeymap.LowerUnsetIffDefault` | nvim-oxi/src/api/opts/set_keymap.rs:7-8 | a lowered record is all `Nil` if and only if no option was set |
| `SetKeymap.LowerAfterSetting` | nvim-oxi/src/api/opts/set_keymap.rs:65-78 | setting one option changes only the matching field of the lowered record |
| `SetKeymap.LowerBuilt` | nvim-oxi/src/api/opts/set_keymap.rs:66-78 | in the lowered record of a built builder, each field encodes the last value set for its option, or is `Nil` if that option was never set |

Lowering is a function of its argument. So lowering the same options twice gives equal records, and the options themselves are never changed.

## Left out

- nvim-oxi/src/api/global.rs and nvim-oxi/src/api/mod.rs are not part of this model. They hold thin foreign calls into Neovim and module declarations.
- The rule that reports a host error before a conversion error lives in `nvim_types`, which is not part of this model.
- The decoders `Objects.ToOptionBool`, `Objects.ToOptionString` and `Objects.ToOptionLuaFn` are reference inverses. The `FromObject` conversions of `nvim_types` are not part of this model.
- `Object`, `NvimString`, their borrowed views and the release of their memory are defined in `nvim_types`, which is not part of this model. Only the object variants that lowering produces are modelled. Ownership and lifetimes are not modelled.
- Objects.FromOptionBool: the real conversion from `Option<T>` to `Object` lives in `nvim_types`. The model assumes it maps `None` to `Nil` and `Some(v)` to the variant of `v`'s type. The same assumption covers FromOptionString and FromOptionLuaFn.
- SetKeymap.SetKeymapOptsBuilder.Callback: the closure is not modelled. The setter takes the callback as an opaque registry reference (`LuaFnMut`). Boxing the closure, registering it with Lua and handing ownership to Lua are foreign runtime work.
- SetKeymap.SetKeymapOptsBuilder.Desc: the `Into<NvimString>` conversion is modelled only for an argument that is already a string.
- SetKeymap.SetKeymapOptsBuilder.Build: returns the options directly, without derive_builder's error type. With struct-level defaults, `build()` can never fail.
- CommandRanges.ParseU32: returns only success or failure, not the error kind (empty, invalid digit, overflow). The visitor discards the error kind.
- The generic serde `Serializer` and `Deserializer` machinery is not modelled. Emission is the serializer calls the derived code makes (`Serialized`): the variant call, with the payload's call nested inside a newtype variant. Deserializer input is serde content without floats, chars and bytes; its integers have serde's `u64` and `i64` widths. The deserializer is assumed to pass string content to `visit_str`, and any other content to the matching default `visit_*` method, which reports an invalid type.
- CommandRanges.EmitThenParse: `ReadBack` assumes that a self-describing format reads a unit variant back as its name, and a newtype variant back as a map. The formats themselves are not modelled.
