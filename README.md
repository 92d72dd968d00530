# Query, search and message-flag requests of the chat client

A Dafny model of the request-shaping core of the chat client's `query.go`:
how a `QueryOption` becomes the wire envelope of the users, channels and
message-flags queries; the local validation a `SearchRequest` must pass
before any call is made; which transport call each operation issues; and
how decoded responses are shaped for the caller (channel entries attached
to their `Channel` objects, search results reduced to their messages).

The transport (`makeRequest`) is a parameter of every operation: a function
from the `Request` it is given (method, path, the value carried as the
`payload` query-string parameter, the value carried as the body) to a
`Reply` holding what it decoded and the error it returned. That makes "a
rejected search is never sent" a statement about the result not depending
on that function.

Modules:

- `Wrappers` — `Option`, `Result`, `Outcome`.
- `QueryTypes` — the data model: filter values, sort directives, options,
  envelopes, search requests and responses, the `Channel` class, errors and
  transport requests.
- `Envelope` — the three envelope builders, the JSON keys each envelope
  emits, and how the envelopes relate. `Emits` and `EmittedKeys` are the
  definition of the envelope's `omitempty` tags (query.go:29-42): the three
  flags always, every other key only when its field is set; the lemmas
  about them are the `*EnvelopeKeys` rows below.
- `Endpoints` — the transport call of each endpoint, `QueryUsers`,
  `QueryMessageFlags`.
- `Search` — `SearchWithFullResponse` with its validation, and `Search`.
  `SearchEmits` is the definition of the search request's `omitempty` tags
  (query.go:114-127): query and both filter maps always, limit, offset,
  next and sort only when set; `OffsetKeysIffOffsetError` is the property
  proved about it.
- `Channels` — the shaping loop of `QueryChannels`, on `Channel` objects
  updated in place.

Three behaviours of the code are kept as written: `QueryUsers` and `QueryMessageFlags` return what was
decoded together with the transport's error, rather than only one of them;
`Limit` and `Offset` are plain integers that may be negative, since nothing
checks them; a `SortOption`'s direction is any integer, since nothing
checks it either.

## Model

| member | source | states |
|---|---|---|
| `Envelope.UsersRequest` | query.go:51-56 | the users envelope reads back as the option with its sort replaced by the separate sort list and with no acting user and no per-channel limits; watch, state and presence are all false |
| `Envelope.ChannelsRequest` | query.go:86-95 | the channels envelope reads back as the option with its sort replaced by the separate sort list (filter, user, limit, offset and both per-channel limits unchanged); state is true, watch and presence false |
| `Envelope.MessageFlagsRequest` | query.go:185-189 | the flags envelope reads back as filter, limit and offset only: empty sort, no acting user, no per-channel limits; all flags false |
| `Envelope.UsersEnvelopeKeys` | query.go:51-56 | a users envelope never emits `user_id`, `member_limit` or `message_limit`; filter, limit, offset and sort appear exactly when set |
| `Envelope.ChannelsEnvelopeKeys` | query.go:86-95 | a channels envelope emits each of the six pass-through keys exactly when the option sets it, and `sort` exactly when sort directives are given |
| `Envelope.MessageFlagsEnvelopeKeys` | query.go:185-189 | a flags envelope emits nothing beyond the three flags, the filter, the limit and the offset, and each of the last three exactly when the option sets it |
| `Envelope.ChannelsRoundTrip` | query.go:86-95 | building the channels envelope from an option and its own sort and reading it back gives the option; an envelope with the channels flags is rebuilt exactly from what it reads back as |
| `Envelope.OptionSortUnused` | query.go:50-56 | none of the three builders (users here; channels at query.go:86-95 and flags at query.go:185-189 likewise) depends on the option's own sort field |
| `Envelope.EnvelopesRelated` | query.go:185-189 | relating the flags literal to the users literal (query.go:51-56) and that to the channels literal (query.go:86-95): the users envelope is the channels envelope without state flag, acting user and per-channel limits; the flags envelope is the users envelope with no sort |
| `Endpoints.TransportConventions` | query.go:63-67 | the calls at query.go:67, 98, 173 and 200: users, flags and search are GETs carrying their value as the `payload` parameter and no body; channels is a POST carrying the envelope as body and no parameters; the paths are "users", "channels", "moderation/flags/message", "search" |
| `Endpoints.QueryUsers` | query.go:50-70 | the users envelope goes as the `payload` parameter of a GET to "users"; the decoded users and the transport's error are returned together, unchanged |
| `Endpoints.QueryMessageFlags` | query.go:184-203 | the flags envelope goes as the `payload` parameter of a GET to "moderation/flags/message"; the decoded flags and the transport's error are returned together, unchanged |
| `Search.ValidateSearch` | query.go:155-162 | rejects exactly the requests combining a non-zero offset with a sort or a cursor, or free text with message filters; the offset error wins when both rules are broken; each error carries the source's message text |
| `Search.ZeroOffsetIgnoresSortAndNext` | query.go:155-159 | with a zero offset, validation is the same whatever sort and cursor hold, and never reports the offset error |
| `Search.ValidationIgnoresFiltersAndLimit` | query.go:155-162 | channel filters and limit never affect validation |
| `Search.SearchWithFullResponse` | query.go:154-177 | an invalid request yields its validation error; a valid one is sent as the `payload` parameter of a GET to "search" and yields the transport's error if any, else the decoded response with its cursors |
| `Search.RejectedSearchNeverSent` | query.go:155-173 | for a request that fails validation the full search's result is a validation error, identical whatever the transport would answer |
| `Envelope.KeyNamesDistinct` | query.go:29-42 | the ten envelope fields have pairwise distinct JSON names, so the key a field is written under identifies it |
| `Search.SearchKeyNamesDistinct` | query.go:114-127 | the seven search request fields have pairwise distinct JSON names |
| `Search.OffsetKeysIffOffsetError` | query.go:155-159 | a search payload would carry `offset` together with `next` or `sort` exactly when validation rejects it with the offset error |
| `Search.Search` | query.go:140-151 | a failed full search yields its error unchanged; otherwise the result has one message per search result, the i-th being the i-th result's message |
| `Channels.AttachChannelData` | query.go:102-109 | returns one channel per decoded entry, in order, the i-th being the i-th entry's channel; each channel holds the members, messages and read state of the last entry pointing at it; only those channels are modified and their ids are unchanged |
| `Channels.AttachedDistinct` | query.go:102-109 | when no two entries share a channel object, the i-th returned channel holds exactly the i-th entry's members, messages and read state |
| `Channels.QueryChannels` | query.go:85-112 | the channels envelope goes as the body of a POST to "channels"; on a transport error that error is returned and no channel changes; otherwise one channel per decoded entry, in order, each holding the lists of the last entry pointing at it, with ids unchanged |

## Left out

- The JSON encoding itself (`json.Marshal`, the search encoder and its trailing newline) and `url.Values`: only which keys the `omitempty` tags let through is modelled, not the bytes. The encoding is taken to succeed, since the `Value` type holds only JSON-representable values; the encoding-error returns at query.go:59-61, 165-167 and 191-193 are therefore not modelled.
- The transport (`makeRequest`): authentication, the HTTP exchange and response decoding are the function parameter described above.
- `context.Context` cancellation and deadlines: a cancelled call is just a transport error.
- The `client` back-reference written onto each channel at query.go:108: it only serves later network calls.
- Nil pointers: a nil `*QueryOption`, a nil `*SortOption` in a sort list, a nil `Channel` in a channels entry (which would panic at query.go:105) and a nil `Message` in a search result are not representable.
- The fields of `User`, `Message`, `ChannelMember`, `ChannelRead`, `MessageFlag` and `Channel` beyond an identifier: those types are declared outside query.go and are not part of this model.
- Floating-point filter values: `Value` numbers are integers.
- The width of Go's `int`: limits, offsets and directions are copied and compared with zero only, so unbounded integers behave the same.
