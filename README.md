# sftp-to-data-lake, modelled in Dafny

An HTTP-triggered Azure Function copies blobs from a source storage account
into a data-lake account. It reads a per-vendor YAML configuration, finds the
entry `vendors[vendor][container]`, and derives a candidate blob name for each
configured file. A name that passes a date check is copied into a
"virtual folder" `folder-mnemonic/YYYY/MM/DD` in the destination container.
The handler answers 400 when the configuration is not found, 200 when the
loop over the files completes, and 500 when an exception escapes.

This project models, in `azure-functions/sftp-to-data-lake/sftp-to-data-lake.py`:

- `get_container_config`: module `ConfigLookup` (`config_lookup.dfy`). It works
  over a datatype of parsed YAML values and Python's truthiness, both in
  `YamlValue` (`yaml_value.dfy`).
- The date check and path building of `move_blob_with_virtual_folder`: module
  `BlobMove` (`blob_move.dfy`). The regular expression
  `\d{4}/\d{2}/\d{2}$` under `re.match` is a small matcher, proved equal to a
  declarative description of the accepted names. The storage calls a move
  makes are returned as a list of effects.
- `main`: module `Handler` (`handler.dfy`). It covers the candidate-name
  expression, the opening of the two clients, the loop over `file_configs` as
  a method, and the 400/200/500 outcomes.

On these points the model follows what the code does. It differs from
reading the date pattern as anchored only at the end, from treating a
container entry with missing keys as "not found", and from expecting the
`acme`/`orders` request (one file entry `orders`, no pattern) to answer 200:

- The date pattern is not only anchored at the end. `re.match` only tries
  position 0, so any prefix makes the check fail
  (`BlobMove.PrefixedDateRejected`).
- Python's `$` also matches just before a single final newline. So
  `YYYY/MM/DD\n` passes, and the folder uses the text without the newline.
- A container entry that lacks one of the three required keys raises
  `KeyError`, which becomes a 500. It does not count as "not found".
- A configuration with one well-formed file entry answers 500, not 200
  (see Findings).

## Model

| member | source | states |
|---|---|---|
| ConfigLookup.ProjectContainer | azure-functions/sftp-to-data-lake/sftp-to-data-lake.py:19-29 | Succeeds exactly when `destination-container`, `folder-mnemonic` and `source-container` are all present. Otherwise it raises `KeyError` for the first missing one, in that reading order. On success the result has exactly the keys `source_container`, `destination_container`, `folder_mnemonic`, `file_configs`, with the values copied verbatim and `file_configs` defaulting to `{}`. |
| ConfigLookup.GetContainerConfig | azure-functions/sftp-to-data-lake/sftp-to-data-lake.py:9-29 | Returns `None` exactly when `vendors` is absent (or a dict) and the vendor entry is falsy, or the vendor entry is a dict and the container entry is falsy. This covers a missing vendor or container parameter. A truthy dict container entry gives its projection, or the projection's `KeyError`. A non-dict config, a non-dict `vendors` value such as `vendors: null`, or a truthy non-dict vendor entry raises `AttributeError` on `.get`. A truthy non-dict container entry raises `TypeError` when subscripted. |
| BlobMove.MatchFrom | azure-functions/sftp-to-data-lake/sftp-to-data-lake.py:46 | A match of fixed-width atoms followed by `$` ends exactly `|atoms|` characters after its start, inside the subject, at a point where `$` holds. |
| BlobMove.MatchFromAccepts | azure-functions/sftp-to-data-lake/sftp-to-data-lake.py:46 | The matcher succeeds if and only if each atom accepts its character and `$` holds right after the last one. |
| BlobMove.DatePatternMeaning | azure-functions/sftp-to-data-lake/sftp-to-data-lake.py:46 | `\d{4}/\d{2}/\d{2}$` matched from position 0 accepts exactly the names that are `DDDD/DD/DD`, optionally followed by one newline. |
| BlobMove.DateMatch | azure-functions/sftp-to-data-lake/sftp-to-data-lake.py:46-51 | `re.match` finds a match if and only if the name is a date name. `group(0)` is then the first ten characters, which form a date fragment. |
| BlobMove.PrefixedDateRejected | azure-functions/sftp-to-data-lake/sftp-to-data-lake.py:46 | Any non-empty text before a date fragment makes the check fail, with or without a final newline. |
| BlobMove.TrailingNewline | azure-functions/sftp-to-data-lake/sftp-to-data-lake.py:46 | A date fragment matches as itself. With one final newline it still matches, and the match excludes the newline. Two final newlines fail. |
| BlobMove.JoinPath | azure-functions/sftp-to-data-lake/sftp-to-data-lake.py:60 | POSIX `os.path.join` of two parts. The blob name always ends the joined path, kept whole. A relative name follows the whole container with nothing dropped or overlapped: one `/` is added between them exactly when the container is non-empty and does not already end in `/`, and nothing is added otherwise. An absolute name replaces the container entirely. |
| BlobMove.MoveBlob | azure-functions/sftp-to-data-lake/sftp-to-data-lake.py:43-65 | No storage call at all if and only if the name fails the date check. Otherwise exactly two calls are made. The first creates the folder `mnemonic + "/" + date` in the destination container. The second copies the joined source path into the same container, at `folder + "/" + name`. |
| Handler.CandidateName | azure-functions/sftp-to-data-lake/sftp-to-data-lake.py:108-111 | The name is exactly the mnemonic followed by `*` when a pattern is set, and by `.csv` otherwise. It ends in `*` if and only if a pattern is set. No such name passes the date check. |
| Handler.OpenClients | azure-functions/sftp-to-data-lake/sftp-to-data-lake.py:97-102 | Opening succeeds exactly when both connection-string keys are present and both constructors accept their values. Every failure is the first one in source order: a missing source key raises `KeyError` for it; otherwise a rejected source value is a client error; otherwise a missing destination key raises `KeyError` for it; otherwise a rejected destination value is a client error. |
| Handler.ProcessEntry | azure-functions/sftp-to-data-lake/sftp-to-data-lake.py:105-121 | One loop iteration succeeds exactly when the entry is a dict holding `file-mnemonic` and the three keys it reads are in the container config. A successful iteration issues no storage call. A non-dict entry raises `TypeError`; a missing mnemonic raises `KeyError('file-mnemonic')`; a missing source key raises `KeyError` for that key. |
| Handler.HandleRequest | azure-functions/sftp-to-data-lake/sftp-to-data-lake.py:79-131 | A lookup exception gives 500 with it; `None` gives 400 with the fixed body; a client failure gives 500. A non-dict `file_configs` raises `AttributeError` on `.items`. Otherwise the answer is 200 with the fixed body if and only if every entry goes through, else the exception of an entry that raised. The effect log stays empty. |
| Handler.Serve | azure-functions/sftp-to-data-lake/sftp-to-data-lake.py:67-131 | The status is always 200, 400 or 500. It is 400, with the fixed body, exactly when the lookup gives `None`. It is 200, with the fixed body, exactly when the container is found, the clients open and `file_configs` is empty. Non-empty well-formed entries give `KeyError('source-container')`. No blob is ever copied. |
| Handler.ServeIntended | azure-functions/sftp-to-data-lake/sftp-to-data-lake.py:104-125 | With the loop reading the projected keys, a found container with open clients answers 200 exactly when every file entry is a dict holding a mnemonic. 400 is unchanged, and still no blob is copied. |
| Handler.AcmeOrdersScenario | azure-functions/sftp-to-data-lake/sftp-to-data-lake.py:105-125 | For vendor `acme`, container `orders` and one entry `{file-mnemonic: orders, file-pattern: null}`, the code as written raises `KeyError('source-container')`. The intended keys give 200. |

## Findings

| source | as written | input that shows it | evidently intended | confidence | as-written member | corrected member |
|---|---|---|---|---|---|---|
| azure-functions/sftp-to-data-lake/sftp-to-data-lake.py:116-120 | The move call reads `container_config["source-container"]`, `["destination-container"]` and `["folder-mnemonic"]`. The dictionary built at lines 24-29 is keyed `source_container`, `destination_container`, `folder_mnemonic`. The first entry of a non-empty `files` therefore raises `KeyError('source-container')`, so the handler answers 500. | vendor `acme`, container `orders`, `files: {orders: {file-mnemonic: orders, file-pattern: null}}`, both connection strings present | Read the underscore keys, so that a well-formed request answers 200 | high; not executed | Handler.Serve (exhibited by Handler.AcmeOrdersScenario) | Handler.ServeIntended |

Even with the keys corrected, no copy can happen: every candidate name ends
in `*` or `.csv` (lines 108-111), and the date check at line 46 rejects every
such name (`Handler.CandidateName`, `Handler.ProcessEntry`). The model keeps
the code's candidate names in both versions, since the intended naming is
not evident from the source.

## Left out

- Loading `config.yaml` (lines 81-82): file I/O and a foreign parser. The parsed document is an input, so a load or parse error (a 500 in the source) is not modelled.
- YAML floats, non-string mapping keys and tags. The document is null, booleans, integers, strings, lists and string-keyed dictionaries.
- Python's Unicode-wide `\d`: digits are the ASCII `0`-`9`.
- The storage SDK (lines 35-40, 57, 61, 64-65, 97-102). The two client constructors are the parameter `connects`. `create_virtual_folder` (check or create the container, then the empty marker blob) and the copy are recorded as effects, not performed. What the SDK does with `get_blob_client(source_blob_path)` (one argument) and `copy_blob` is not modelled.
- Python's `str()` of a YAML value, which the f-strings use, is the parameter `render`.
- BlobMove.MoveBlob: takes the containers and the mnemonic already rendered as strings, so it does not model the `TypeError` that `os.path.join` raises for a non-string source container. The handler never reaches that point, since no candidate name passes the date check.
- `os.path.join` is modelled with POSIX semantics, the platform Python Azure Functions run on.
- The iteration order of `file_configs`: the model takes entries in an unspecified order. When several entries would raise different errors, it states only that the error comes from one of them.
- The text of the 500 body (the exception's message), logging, and the HTTP request and response objects. A 500 is represented by the exception itself.
- The module-level `NameError`: `func` is used at line 67 but only `Function` is imported at line 3. The model describes the handler as if the module loaded.
