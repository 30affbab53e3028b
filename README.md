# Storage file client of supabase-py, modelled in Dafny

`StorageFileApi` is the file half of the Python client's storage support. It
holds a base URL, a set of authentication headers and a bucket id, and offers
four operations: `create_signed_url`, `move`, `remove` and `list`. Each one
builds exactly one HTTP request and then turns what happened into a return
value or an exception. This project models that layer. The HTTP transport is
outside the model.

- `wrappers.dfy`: `Option` (Python's `None`) and `Result` (how a `try` block ends).
- `values.dfy`: the values `response.json()` decodes (`None`, `bool`, `int`,
  `str`, `list`, `dict`). It also holds Python's `str()` of an integer,
  proved invertible (`int(str(n)) == n`), and the f-string formatting of a
  decoded value.
- `http.dfy`: requests (verb, URL, body with its encoding, headers), the
  outcome of sending one, the exceptions the client's code can meet,
  `raise_for_status()`, and the three ways the code ends a call: swallow
  everything, swallow only `HTTPError`, or return the decoded JSON.
- `storage.dfy`: the client. `__init__` only assigns three fields that
  nothing updates later, so the client is the datatype `StorageFileApi`.
  `DEFAULT_SEARCH_OPTIONS` becomes the constant `DefaultSearchOptions`.
  Each request is built by a pure function. Each operation is given the
  transport as a function `send: HttpRequest -> Outcome`. Its contract
  relates the result to `send` applied to exactly the request the builder
  produces. `create_signed_url` and `list` update a local dict step by step
  in the source, so they are methods that do the same with a local map.
  `move` and `remove` are functions.

The per-operation error policies are reproduced as written:

- `create_signed_url` returns `None` on every failure and never raises.
- `move`, `remove` and `list` all return `None` on an HTTP error status.
  On a transport failure, `move` returns `None`, while `remove` and `list`
  re-raise it.
- All three call `response.json()` in the `else` clause, which is outside
  the `try`. So if a success response does not decode, the decode error
  reaches the caller, even from `move`.

Points where the code's behaviour is easy to misread:

- "Success" means what `requests`' `raise_for_status()` accepts, which is
  any status outside 400–599. It does not mean "2xx".
- `remove` swallows an HTTP error and returns `None`.
- `move` does not swallow a decode error of a successful response, because
  that decoding happens outside the `try`.
- `create_signed_url` decodes the body and rewrites `signedURL` before it
  checks the status. The result is still `None` whenever the status is an
  error.

The module constants and the configured headers are immutable values, so they
are the same after `list` as before. `list` sends a new map built from them.

## Model

| member | source | states |
|---|---|---|
| Values.Digits | supabase_py/lib/storage/storage_file_api.py:47 | the digits of a natural number are non-empty, all decimal digits, and start with `0` only when they are the single digit `0` for zero |
| Values.DecimalString | supabase_py/lib/storage/storage_file_api.py:47 | `str(expires_in)` starts with `-` exactly for negative numbers, then has at least one digit and only digits, with no leading zero unless the whole text is `0` |
| Values.ParseDigitsOfDigits | supabase_py/lib/storage/storage_file_api.py:47 | reading the digits of `n` back gives `n` (induction on `n`) |
| Values.ParseDecimalOfDecimalString | supabase_py/lib/storage/storage_file_api.py:47 | `int(str(n)) == n` for every integer `str()` accepts, negative ones included |
| Values.DecimalStringInjective | supabase_py/lib/storage/storage_file_api.py:47 | different expiry times are sent as different `expiresIn` strings |
| Values.FormatValue | supabase_py/lib/storage/storage_file_api.py:52 | the f-string splices a string `signedURL` in as itself and an integer as its `str()` text, which reads back as that integer |
| Http.RaiseForStatus | supabase_py/lib/storage/storage_file_api.py:53 | `raise_for_status()` raises `HTTPError(status)` exactly for the statuses 400–599 |
| Http.SendAndCheck | supabase_py/lib/storage/storage_file_api.py:72-81 | the `try` block ends in a transport error, in `HTTPError(status)` for an error status, or with the response kept for the `else` clause |
| Storage.FinalPath | supabase_py/lib/storage/storage_file_api.py:136-137 | `_get_final_path` is the bucket id, then `/`, then the path |
| Storage.FinalPathInjective | supabase_py/lib/storage/storage_file_api.py:136-137 | within one bucket, two paths with the same final path are equal |
| Storage.SignRequest | supabase_py/lib/storage/storage_file_api.py:43-49 | a JSON POST to `url/object/sign/bucket/path` with the configured headers and the single field `expiresIn`, equal to `str(expires_in)` and reading back as `expires_in` |
| Storage.CreateSignedUrl | supabase_py/lib/storage/storage_file_api.py:42-59 | never raises; returns a value exactly when the status is not an error and the body is a dict with `signedURL`; that value has the same keys, `signedURL` becomes the base URL followed by the server's value, and every other field is unchanged; otherwise `None` |
| Storage.MoveRequest | supabase_py/lib/storage/storage_file_api.py:72-80 | a form POST to `url/object/move` with the configured headers and exactly `bucketId`, `sourceKey`, `destinationKey` set to the bucket, source and destination |
| Storage.Move | supabase_py/lib/storage/storage_file_api.py:71-87 | `None` exactly on a transport failure or an error status; a decode error is raised exactly when a success response does not decode; otherwise the decoded JSON |
| Storage.RemoveRequest | supabase_py/lib/storage/storage_file_api.py:98-102 | a form DELETE to `url/object/bucket` with the configured headers and `prefixes` equal to the paths, in order |
| Storage.Remove | supabase_py/lib/storage/storage_file_api.py:97-109 | `None` exactly on an error status; a transport failure is re-raised, and so is a decode error on a success response; otherwise the decoded JSON |
| Storage.Prefix | supabase_py/lib/storage/storage_file_api.py:124 | `path if path else ""` is the path when one is given and `""` for `None` |
| Storage.ListRequest | supabase_py/lib/storage/storage_file_api.py:122-127 | a JSON POST to `url/object/list/bucket`. The body keys are the defaults, the options and `prefix`. An absent option keeps its default. A given option wins as a whole (shallow merge). `prefix` comes from the path even when the options name one. Headers: the configured ones plus `Content-Type: application/json`, all others unchanged |
| Storage.List | supabase_py/lib/storage/storage_file_api.py:121-134 | the step-by-step merge sends exactly the request above; `None` exactly on an error status; a transport failure is re-raised, and so is a decode error on a success response; otherwise the decoded JSON |
| Storage.ListSortByIsShallow | supabase_py/lib/storage/storage_file_api.py:122 | a caller `sortBy` without `order` is sent as given: the default `order` is not merged into it |
| Storage.ListScenarioRequest | supabase_py/lib/storage/storage_file_api.py:123-126 | listing `folder` on `https://x.test`, bucket `bucket1`, with no configured headers, posts to `https://x.test/object/list/bucket1` with only the JSON content-type header |
| Storage.ListScenarioBody | supabase_py/lib/storage/storage_file_api.py:6-13 | the same call sends `limit` 100, `offset` 0, `sortBy` name/asc and `prefix` `folder`, and nothing else |
| Storage.MoveRemovePoliciesDiffer | supabase_py/lib/storage/storage_file_api.py:82-107 | on the same outcome, `move` and `remove` give the same result exactly when a response arrived; on a transport failure only `remove` raises |

## Left out

- The calls `requests.post` and `requests.delete`, and `response.json()`, are network and library code. The model takes their outcome as the input `send`.
- The `print` diagnostics are assumed to succeed. A failing write to standard output (an encoding error or a broken pipe) is not modelled: inside the `try` of `create_signed_url` it would give `None`, and inside an `except` clause it would escape to the caller.
- Wire encoding is not modelled. A body is the dict handed to `requests`, tagged as JSON or as form data, and no bytes are produced.
- Request headers are compared as a case-sensitive map, the way the Python dict is built. `requests` later merges header names case-insensitively, and the model does not show that.
- JSON numbers with a fraction or an exponent (Python floats) are not among the modelled values.
- Values.FormatValue: when the server's `signedURL` is a list or a dict, Python splices its `repr()` into the URL. The model splices an empty string instead, because container repr, key order and string escaping are not modelled. Every other kind of value is formatted as Python formats it.
- Exceptions that are not `Exception`s, such as `KeyboardInterrupt`, are outside the model.
- Python-level type errors from arguments of the wrong type are outside the model. Two examples are a non-string key in `options` and a `paths` value that is not a list. The model's parameter types rule them out.
- `tests/test_storage.py` and `tests/test_client.py` are integration tests against a live service, through other client libraries. They are not part of this model.
- Storage.CreateSignedUrl: the interpreter's limit on int/str conversion (4300 digits by default in current CPython) is not modelled. Beyond it `str(expires_in)` raises `ValueError`, which the `except Exception` clause turns into `None` without sending a request; the model sends the request for every integer.
- Values.DecimalString: the same digit limit is not modelled, so `int(str(n)) == n` is proved for every integer, while Python raises `ValueError` for integers beyond the limit.
