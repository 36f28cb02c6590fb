# yk-proxy core, modelled in Dafny

yk-proxy is a REST/JSON gateway in front of a shipping carrier's SOAP
service. This project models the logic of its request handlers that sits
between the two wire formats, together with the helpers they call:

- **Batch-create reconciliation** (`Shipment.on_post`). The handler indexes
  the submitted shipments and the carrier's per-item details by `cargoKey`.
  It replaces zeep `SkipValue` fields with `""`. Each reported key's
  shipment then goes to `successful` (with a generated label) or to `failed`
  (with the carrier's `errCode`/`errMessage`). The reply depends on
  `outFlag`: "0" gives 200 with the two lists, "1" gives 500 with the raw
  carrier reply, and any other flag sets nothing.
- **Query merge** (`Shipment.on_get`). Without a truthy `shipment_id` or
  `invoice_id` list the handler answers 400 before any carrier call.
  Otherwise it makes up to two lookups and keeps those whose `outFlag`
  equals `SUCCESSFUL`. Two kept results merge: the counts add up and the
  invoice-ID details follow the shipment-ID details.
- **Request boundary**. The Basic-auth middleware checks the header shape
  and extracts the credentials: base 64 decode, then split on every colon.
  The format middleware reads `formatted`, and a non-boolean value stops
  the request with a 400. The environment middleware chooses the test or
  production endpoint.
  `parameter_as_list` normalises a parameter to a list.
- **Constants** of `reference.py`: the create-shipment error table, the
  key-type identifiers, and `CallResult` with its `__eq__`.

Modules: `Wrappers` (Option/Result), `Python` (the runtime behaviour the
code relies on: `str()` of a scalar, `str.split`, exceptions, falcon status
constants), `Base64`, `Reference`, `Utilities`, `Middleware` and
`Shipment`.

The carrier calls, the field mapper (`parse_shipment` with the type
factory) and the label generator (`generate_zpl_label`) are parameters of
the handlers. Their results are inputs to the model.

Behaviours of the code a client may not expect:

- Credentials are split on every colon, not only at the first one as in
  section 2 of RFC 7617. A password containing a colon is therefore cut
  short (`Utilities.PasswordTruncatedAtColon`).
- A single JSON object as the POST body is not accepted.
  `parameter_as_list` returns None for it, and iterating None raises
  TypeError (`Shipment.OnPost`).
- A carrier key missing from the submissions is not flagged. It raises
  KeyError (`Shipment.ReconciliationFailsIffUnmatched`). A submission the
  carrier does not report is silently dropped
  (`Shipment.ReconciliationOutputs`).
- A failed lookup in `on_get` is not surfaced. The reply is still 200,
  with `{}` if nothing succeeded. A lookup whose `outFlag` is None raises
  AttributeError inside `CallResult.__eq__`.

## Model

| member | source | states |
|---|---|---|
| `Python.Str` | reference.py:154-158 | `str()` of a string is the string itself, and the form "0" belongs to the string "0" and the integer 0 alone |
| `Python.Split` | utilities.py:8 | `str.split` gives at least one piece, one more than the separators in the input, and no piece contains the separator |
| `Python.IntStrIsZeroIff` | reference.py:152-154 | `str(n) == "0"` holds exactly for the integer 0 |
| `Python.JoinSplit` | utilities.py:8 | joining the pieces of `s.split(sep)` with `sep` gives back `s` |
| `Python.SplitJoin` | utilities.py:8 | splitting a join of separator-free pieces gives back those pieces |
| `Python.SplitAfterPiece` | utilities.py:8-9 | the first piece of a split is the text before the first separator; the rest is the split of what follows |
| `Python.SplitNoSeparator` | utilities.py:9 | a string without the separator splits into itself alone |
| `Base64.Decode` | utilities.py:8 | strict decoding succeeds only on a multiple of four characters, gives three bytes per quantum less up to two for padding, and raises `binascii.Error` otherwise (see its line under Left out) |
| `Base64.DecodeEncode` | utilities.py:8 | base 64 decoding (section 4 of RFC 4648) inverts encoding for every byte string, padding included |
| `Base64.DecodeAscii` | utilities.py:8 | text decoding succeeds iff every byte is below 0x80, and re-encoding the text gives the bytes back |
| `Base64.DecodeAsciiBytes` | utilities.py:8 | decoding the bytes of an ASCII string gives the string back |
| `Reference.Equals` | reference.py:151-160 | `__eq__` raises AttributeError exactly when the operand is None or an object without `outFlag`, since both take the attribute branch |
| `Reference.EqualsTrueIff` | reference.py:151-160 | `__eq__` is True iff the operand is a str/int whose `str()` is the flag, or an object whose `str(outFlag)` is the flag |
| `Reference.SuccessfulMatchesZero` | reference.py:151-163 | among strings and integers, `SUCCESSFUL` equals exactly `"0"` and `0` |
| `Reference.SuccessfulExamples` | reference.py:163 | `SUCCESSFUL == "0"`, `SUCCESSFUL == 0` and `SUCCESSFUL != "1"` |
| `Reference.OperandOf` | reference.py:152 | a None flag takes the attribute branch of `__eq__`; a str or int flag `v` becomes the directly compared operand `Flag(v)` |
| `Reference.OnlyInvoicePreferenceLacksStatus` | reference.py:13-138 | entry 82514 alone has no HTTP status component; no listed status is 200 |
| `Reference.ShipmentIdNotFoundEntry` | reference.py:19-23 | code 80859 maps to (404, "Shipment ID not found", "Kargo anahtarı bulunamadı") |
| `Utilities.ExtractCredentials` | utilities.py:3-9 | a successful extraction returns two colon-free strings |
| `Utilities.ExtractFromText` | utilities.py:8-9 | for any token that decodes to the bytes of `text`, canonical or not, the result is pieces 0 and 1 of `text.split(":")`, or IndexError if there is only one piece |
| `Utilities.ExtractRoundTrip` | utilities.py:3-9 | extracting from base64(`user:password`) gives `(user, password)` when neither contains a colon |
| `Utilities.PasswordTruncatedAtColon` | utilities.py:8-9 | a password containing a colon comes back cut at its first colon |
| `Utilities.NoColonFails` | utilities.py:9 | decoded text without a colon raises IndexError |
| `Utilities.ParameterAsList` | utilities.py:11-20 | a list is returned unchanged, a string `s` becomes `[s]`, every other value gives None |
| `Utilities.ParameterAsListIdempotent` | utilities.py:17-20 | normalising the result of a list or string input changes nothing |
| `Middleware.ProcessAuth` | proxy.py:28-39 | a missing header or one that does not split on " " into exactly "Basic" and a token is a 401; otherwise the result is that of `extract_credentials` on the token, its errors included |
| `Middleware.BasicHeaderSplit` | proxy.py:30-35 | a header "Basic " + a space-free token splits on spaces into exactly the scheme "Basic" and the token |
| `Middleware.AuthAcceptedOnlyBasic` | proxy.py:29-39 | a header is accepted only if it is "Basic " followed by a space-free token; every other header, and a missing one, is a 401 |
| `Middleware.BasicHeaderRoundTrip` | proxy.py:35-36 | the header "Basic " + base64(`user:password`) authenticates as `(user, password)` when neither contains a colon |
| `Middleware.SelectEndpoint` | proxy.py:46-54 | the test client and factory are chosen iff the user is "YKTEST" or the `environment` parameter is the string "test" |
| `Middleware.ProcessRequest` | proxy.py:195-201 | the middlewares run in order (authentication, `formatted` parsing, endpoint choice), and the first failure, a 401 or extraction error or the 400 for a non-boolean `formatted`, stops the request with that error; otherwise the context holds the credentials, the `formatted` flag and the endpoint chosen for that user |
| `Middleware.TestAccountUsesTestEndpoint` | proxy.py:47-50 | the carrier's test account reaches the test endpoint whatever the `environment` parameter says, once `formatted` parses |
| `Shipment.IndexSubmitted` | proxy.py:102 | indexing by cargoKey succeeds iff every submitted item has a cargoKey, and raises KeyError otherwise |
| `Shipment.IndexSubmittedContents` | proxy.py:102 | every submitted key is indexed; each entry is a submitted item stored under its own cargoKey; among duplicates the last one wins |
| `Shipment.IndexDetails` | proxy.py:103 | the reported keys are indexed without repetition, and the detail map has exactly those keys |
| `Shipment.IndexDetailsContents` | proxy.py:103 | every reported key is indexed under a reported detail carrying that key |
| `Shipment.IndexDetailsLastWins` | proxy.py:103 | among details with the same cargoKey, the last one is kept |
| `Shipment.IndexDetailsCovers` | proxy.py:103 | the index has exactly one key per distinct reported cargoKey |
| `Shipment.Stripped` | proxy.py:108-111 | after stripping no field is a SkipValue; SkipValue fields became `""` and every other field is unchanged |
| `Shipment.StripShipment` | proxy.py:109-111 | the in-place loop over one shipment's fields produces the stripped shipment |
| `Shipment.StripSkipValues` | proxy.py:108-111 | the in-place loop over all indexed shipments strips each of them and keeps the keys |
| `Shipment.StrippedAll` | proxy.py:108-111 | every indexed shipment keeps its key and its field names, loses every SkipValue, and keeps every other field value |
| `Shipment.Reconciled` | proxy.py:115-123 | an item with no errCode gains exactly the `label` field from the generator, and every other field, an existing errCode or errMessage included, is unchanged; otherwise it gains exactly `errCode` and `errMessage` from the detail, and every other field, an existing label included, is unchanged; cargoKey is always kept |
| `Shipment.Partitioned` | proxy.py:113-124 | walking the reported keys raises KeyError iff some key has no submission; otherwise the two lists together have one entry per key |
| `Shipment.PartitionContains` | proxy.py:113-124 | each key's item, with a label or with the carrier's error, is in `successful` when its errCode is None and in `failed` otherwise |
| `Shipment.PartitionOnly` | proxy.py:113-124 | every listed item carries a reported key, with no errCode in `successful` and with one in `failed`; no SkipValue enters a list |
| `Shipment.PartitionByKey` | proxy.py:113-124 | the in-place loop that labels or annotates each shipment and appends it computes that partition, KeyError included |
| `Shipment.Reconciliation` | proxy.py:101-124 | the reconciliation fails only with KeyError; on success every submission had a cargoKey and the two lists hold one item per distinct reported key |
| `Shipment.Reconcile` | proxy.py:101-124 | indexing, stripping and partitioning as the source runs them give the reconciliation result |
| `Shipment.ReconciliationFailsIffUnmatched` | proxy.py:102-124 | reconciliation raises KeyError exactly when a submission lacks a cargoKey or the carrier reports a cargoKey nobody submitted |
| `Shipment.ReconciliationCounts` | proxy.py:103-124 | `len(successful) + len(failed)` is the number of distinct reported cargoKeys |
| `Shipment.ReconciliationOutputs` | proxy.py:108-124 | every returned item carries a reported cargoKey and holds no SkipValue; unreported submissions are dropped |
| `Shipment.ReconciliationPlacement` | proxy.py:113-124 | each reported key's last submission, stripped, is in `successful` with `label = generate_zpl_label(item, str(jobId))` iff its last detail has no errCode, and otherwise in `failed` with errCode and errMessage copied; never in both |
| `Shipment.MappedShipments` | proxy.py:86-90 | one mapped shipment per body element, in order |
| `Shipment.OnPost` | proxy.py:76-129 | a non-list, non-string body raises TypeError; outFlag "0" gives 200 with outFlag "0", count and jobId verbatim and the two lists, or the reconciliation's KeyError; "1" gives 500 with the raw reply; any other flag sets nothing |
| `Shipment.Succeeded` | proxy.py:157 | a lookup counts iff its outFlag is "0" or 0; a None outFlag raises AttributeError |
| `Shipment.OnGet` | proxy.py:131-180 | no truthy identifier list gives 400 with no carrier call; a list that is not None is looked up, shipment IDs (key type 0) before invoice IDs (key type 1); two successes merge with summed count and concatenated details; one success is returned unchanged; none gives `{}`; the status is 200 |

## Left out

- The field mapper, phone unpacker and label generator (`parse_shipment`, `unpack_phone_numbers`, `generate_zpl_label`). `proxy.py` imports them, but their definitions lie outside the modelled files. The mapper and the label generator are function parameters of `Shipment.OnPost`.
- The zeep client, transport and cache, and the SOAP calls `createShipment` and `queryShipment`. These are network I/O, so their replies are parameters.
- `serialize_object`, `json.load`/`json.dumps`, and falcon's request/response objects, routing and app setup. Replies are returned as values. The order of fields inside one shipment is not modelled: a shipment is a map. The order of the lists is modelled.
- `LocaleMiddleware` and `on_delete` are empty stubs.
- falcon's `get_param_as_bool`/`get_param_as_list` parsing is library code and is not modelled. For `formatted` (proxy.py:70), the outcome, a boolean or an HTTP 400, is an input of `Middleware.ProcessRequest`.
- Shipment.OnGet: its query parameters (proxy.py:135-138) arrive already parsed. The HTTP 400 that falcon raises for a non-boolean `add_historical_data` or `tracking_url_only`, before any carrier call, is not modelled.
- The cash-on-delivery payment constants (reference.py:143-144). No code in the modelled files uses them.
- The sender settings read from the environment and the WSDL URLs. These are process configuration.
- Base64.Decode: models strict base 64 decoding (section 4 of RFC 4648). Python's non-validating `b64decode` also discards characters outside the alphabet and stops at the first complete padding. On such malformed tokens the model raises where Python may decode.
- Base64.DecodeAscii: text decoding is restricted to ASCII. A byte of 0x80 or above raises in the model, even where Python would decode valid multi-byte UTF-8.
- Shipment.IndexDetails: the keys come in first-occurrence order, as a Python dict keeps them. This order is given by the definition and not restated as a separate property.
- Shipment.OnGet: `count` is taken to be an integer, as the carrier declares it. `+=` on other types is not modelled.
- Python's cross-type key equality (`1 == True`, `1 == 1.0`) is not modelled. Booleans and floats are not among the scalar values.
- Aliasing between the appended shipments and `shipments_by_key`. No shipment is touched after it is appended, so values suffice.
- A label generator that raises, and a carrier reply whose detail list is None. The generator is a total function, and the detail list is always a list.
