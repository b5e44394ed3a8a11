# bTagScriptWorker: a verified model of the worker's core

bTagScriptWorker is a small HTTP worker. It runs scripts in a template language
("tagscript") through the bTagScript interpreter and returns the rendered body,
the side-effect actions and the engine's extras as JSON. This project models the
pure parts of `index.py` in Dafny and proves properties about them:

- **the transport codec** (module `Codec`). `encode_tagscript` swaps the five
  plain characters `\ / < > .` for five rare code points, called markers here:
  U+A732, U+20A9, U+A733, U+A735 and U+A736. `clean_tagscript` swaps them back.
  Both are written as chains of `str.replace`. The model keeps them as chains of
  a modelled single-character replace (`ReplaceChar`). It proves, by induction
  on the string, that each chain equals a pointwise character map. The round
  trips, idempotence, length and alphabet facts follow from that.
- **synthetic members** (module `Members`). `FakeMember.__init__` builds a
  member from an untrusted mapping. `clean_seeds` wraps two such members as the
  `user` and `target` seeds. The model keeps the source's quirks:
  - `created_at` reads key `"user"`;
  - `display_name` reads key `"name"`;
  - `bot` is always false;
  - the `joined_at` fallback is the string `"0"`, and `datetime.fromtimestamp`
    rejects a string. So a payload without a numeric `joined_at` raises
    `TypeError`.

  A payload that is not a mapping raises `AttributeError`. A missing
  sub-payload is `None`, so it raises `AttributeError` too. These errors are
  modelled with `Result`, not excluded by preconditions.
- **result shaping** (module `Gateway`). This covers the script each route sends
  to the engine and the rebuild loop over the engine's actions. It also covers
  the three-key response object of `v1_process` and `v2_process`. The template
  engine and the embed's `to_dict` are function-valued parameters. Nothing is
  assumed about them.

`Outcomes` holds `Option` and `Result`. `Values` holds a JSON-like `Value` and
`Get`, which is Python's `dict.get`.

Facts about `index.py` that the model makes explicit:

- Encoding after cleaning gives back `t` exactly when `t` has no plain
  character (`Codec.EncodeCleanRoundTrip`). Being free of markers is not
  enough: `"a/b"` is a counterexample (`Codec.EncodeCleanNeedsPlainFree`).
- `clean_seeds` builds only the `user` and `target` seeds. A missing
  sub-payload raises instead of being defaulted.
- The v2 route's call to `clean_seeds` is commented out (index.py:180), so its
  seeds are always `{}`. The route also does not decode the `tagscript` header.

## Model

| member | source | states |
|---|---|---|
| Codec.ReplaceCharIsPointwise | index.py:111-115 | a one-character `str.replace` keeps the length; at each position it yields the replacement where the pattern occurred and the original character elsewhere |
| Codec.CleanIsPointwise | index.py:106-117 | the five chained replacements of `clean_tagscript` equal the pointwise map of the marker-to-plain table |
| Codec.EncodeIsPointwise | index.py:120-131 | the five chained replacements of `encode_tagscript` equal the pointwise map of the plain-to-marker table |
| Codec.EncodeShape | index.py:124-130 | encoding keeps the length, leaves no plain character, keeps every non-plain character in place and puts a marker where a plain character was |
| Codec.CleanShape | index.py:110-116 | cleaning keeps the length, leaves no marker, keeps every non-marker character in place and puts a plain character where a marker was |
| Codec.EncodeFixesPlainFree | index.py:124-130 | encoding leaves a text unchanged if and only if the text has no plain character |
| Codec.CleanFixesMarkerFree | index.py:110-116 | cleaning leaves a text unchanged if and only if the text has no marker |
| Codec.EncodeIdempotent | index.py:124-130 | encoding twice is encoding once |
| Codec.CleanIdempotent | index.py:110-116 | cleaning twice is cleaning once |
| Codec.CleanEncodeRoundTrip | index.py:106-131 | cleaning after encoding gives the text back if and only if the text has no marker |
| Codec.EncodeCleanRoundTrip | index.py:106-131 | encoding after cleaning gives the text back if and only if the text has no plain character |
| Codec.EncodeCleanNeedsPlainFree | index.py:106-131 | `"a/b"` has no marker, but encoding after cleaning does not give it back |
| Codec.EncodeInjective | index.py:120-131 | two marker-free texts have the same encoding only if they are equal |
| Members.FromTimestamp | index.py:58 | `fromtimestamp` succeeds exactly on numbers and booleans; a number gives its own seconds, a boolean gives 0 or 1, anything else raises a type error |
| Members.MakeMember | index.py:45-60 | a member is built exactly when the payload is a mapping with a numeric `joined_at`; a non-mapping raises the missing-`get` error; any other failure is the timestamp type error; `bot` is false and `joinedAt` is the payload's timestamp |
| Members.MemberDefaults | index.py:49-59 | every key the member reads is copied into its field when present; when absent, `username`, `id`, `color`, `name`, `avatar` and `mention` give "", `discriminator` gives "0001" and `created_at` gives nothing |
| Members.MemberKeySources | index.py:49-54 | `display_name` is the value under `"name"`, `created_at` is the value under `"user"`, and changing `username` changes only the member's `name` |
| Members.MemberIgnoresOtherKeys | index.py:49-59 | setting a key outside the nine keys the member reads never changes the outcome |
| Members.MissingJoinedAtFails | index.py:58 | without `joined_at` the string fallback `"0"` is rejected, so even the empty payload raises the timestamp type error |
| Members.CleanSeeds | index.py:133-141 | the seeds are built exactly when the outer payload is a mapping and both the `user` and `target` sub-payloads can be built; they then have exactly the keys `user` and `target`, holding those members; a non-mapping outer payload raises the missing-`get` error; a `user` failure is the error reported, and otherwise a `target` failure is |
| Members.MissingSubPayloadFails | index.py:137-141 | a missing `user` sub-payload, or a missing `target` after a good `user`, raises the missing-`get` error instead of being defaulted |
| Gateway.ShapeActions | index.py:158-164 | the rebuilt actions have the engine's keys; each value except `embed` is copied and `embed` goes through `to_dict` |
| Gateway.RebuildActions | index.py:158-164 | the item-by-item rebuild loop, taking keys in any order, yields exactly the whole-map rebuild (the v2 loop at lines 184-190 is the same) |
| Gateway.ActionsWithoutEmbedUnchanged | index.py:184-190 | without an `embed` action the actions pass through unchanged |
| Gateway.Respond | index.py:165-169 | the response has exactly the keys `body`, `actions` and `extras`; the body is the encoded engine body, with the same length and no plain character; actions are the rebuilt actions and extras are the engine's |
| Gateway.ResponseBodyDecodes | index.py:166 | cleaning the response body gives the engine's body back if and only if the engine's body has no marker |
| Gateway.V1Script | index.py:156 | the v1 engine input is the cleaned path segment, which holds no marker, followed by the literal `{debug}` |
| Gateway.V2Script | index.py:182 | the v2 engine input ends with `{debug}`; before it comes the raw `tagscript` header, or nothing when the header is absent |
| Gateway.V1Process | index.py:151-170 | the v1 response has the three keys; its body is the encoded engine body with no plain character; the whole response is the three-key response for the engine's output, so actions are the rebuilt actions and extras are the engine's; the engine is called without seeds |
| Gateway.V2Process | index.py:172-197 | the v2 response has the three keys; its body is the encoded engine body with no plain character; the whole response is the three-key response for the engine's output, so actions are the rebuilt actions and extras are the engine's; the engine is called with empty seeds |
| Gateway.V1DeliversEncodedScript | index.py:156 | a client that encodes a marker-free script into the v1 path has exactly that script run, followed by `{debug}` |
| Gateway.V2KeepsEncoding | index.py:182 | an encoded script sent in the v2 header reaches the engine still encoded whenever it had a plain character |
| Gateway.V1IsV2AfterCleaning | index.py:156-182 | the v1 engine input for a segment equals the v2 engine input for a header holding the cleaned segment |

## Left out

- Flask routing, CORS, `jsonify` and the `/` status route (index.py:103-104, 143-152, 172-179): HTTP plumbing. Responses are modelled as the dictionary before serialisation.
- `urllib.parse.unquote` (index.py:156): a library call. `V1Script` takes the already-unquoted segment.
- The bTagScript interpreter and its block list (index.py:72-101), and the embed's `to_dict`: a foreign engine. They are the `Engine` and `ToDict` parameters, and nothing is assumed about them. Engine failures are not modelled.
- `FakeMember.timestamp = datetime.now()` (index.py:52): it reads the clock.
- `FakeAvatar` (index.py:29-38): its object identity is not modelled; the member keeps only the `url` value as `avatarUrl`.
- `MemberAdapter`: the engine's adapter type, kept as a plain wrapper `Seed` around the member.
- `run`, `keep_alive` and the threads started at import (index.py:200-220): server lifecycle, network pinging and concurrency.
- testing.py: a database connection and a `SELECT`, pure I/O with no logic.
- The real `datetime` type: `joinedAt` is whole seconds since the epoch. Local time zones are not modelled.
- Members.FromTimestamp: accepts every integer and boolean. `fromtimestamp` also raises for values outside the platform's date range (`OverflowError`/`OSError`), and that is not modelled. JSON floats are not modelled, because `Value` has only integer numbers.
- Members.CleanSeeds: the engine's `MemberAdapter` is foreign code, kept as a wrapper that cannot fail. Any error the adapter raises is not modelled.
- Members.MakeMember: inherits the `FromTimestamp` simplification above.
- Gateway.V2Script: Flask looks up header names without regard to case. The model reads the header under the exact key `tagscript`.
