# Credential store model

A Dafny model of the credential store in `credential_handler.py`. The store
keeps bot tokens and API keys encrypted at rest. Each entry is a
(category, provider) pair and has two files under `.sequential` in the
working directory. The ciphertext file is
`<category>/encrypted/.<provider>.token` for the category `tokens` and
`<category>/encrypted/.<provider>.api` for any other category. The key file is
`<category>/key/.<provider>.key`. The provider is lower-cased in both names.
The model covers:

- path derivation (`get_paths`);
- the directory tree `ensure_dirs` creates;
- the get-or-create key policy (`generate_key`, `get_cipher`);
- saving and loading (`save_data`, `load_data`);
- the checks the window's Save and Launch buttons make before calling the store;
- `launch_bot`.

Files:

- `text.dfy` (module `Text`): `str.strip()` and `str.lower()`.
- `paths.dfy` (module `Paths`): paths as sequences of segments, `get_paths`
  and the directory layout.
- `crypto.dfy` (module `Crypto`): the cipher (Fernet) as three abstract
  functions. Three predicates state what authenticated encryption promises:
  `RoundTrip`, `WrongKeyFails` and `Integrity`. Each lemma takes as
  hypotheses only the ones it needs.
- `credentials.dfy` (module `Credentials`): the file system is a value `Disk`,
  a map from file paths to bytes plus a set of directories. Each store
  operation is a function from the disk before to its result and the disk
  after (`GenerateKeyStep`, `SaveStep`, `LoadStep`, ...). The lemmas are about
  these functions. The class `CredentialStore` holds the disk as fields, and
  its methods perform the operations step by step the way the Python does. Each
  method is proved to agree with the corresponding function.
- `ui.dfy` (module `Ui`): the `on_save` and `on_launch` checks, `launch_bot`,
  and the end-to-end path from Save to Launch.

Three facts about the code that the model keeps:

- `save_data` stores even a blank secret, as an encryption of `""`. Only
  `on_save` refuses blank input (`Ui.SaveInput`).
- The provider label is lower-cased but not trimmed.
- `load_data` on an entry whose key file has been deleted writes a fresh key
  file. The ciphertext then stays unreadable, and the load returns `""`
  (`Credentials.LoadWithoutKeyStrands`).

## Model

| member | source | states |
|---|---|---|
| `Text.Strip` | credential_handler.py:52 | the result neither starts nor ends with whitespace; it is a slice of the input with only whitespace outside it; it is empty exactly when the input is blank |
| `Text.StripIdempotent` | credential_handler.py:139-143 | stripping twice equals stripping once (on_save strips, then save_data strips again) |
| `Text.Lower` | credential_handler.py:25-26 | same length; each character is the lower-cased input character |
| `Text.LowerIdempotent` | credential_handler.py:25-26 | lower-casing a lower-cased label changes nothing |
| `Paths.BaseDir` | credential_handler.py:7 | the base directory is the working directory extended by exactly one segment, `.sequential` |
| `Paths.Ext` | credential_handler.py:24 | the extension is `.token` exactly when the category is `tokens`, otherwise `.api` |
| `Paths.GetPaths` | credential_handler.py:19-28 | ciphertext file in `base/category/encrypted`, named `.` + lower(provider) + Ext(category); key file in `base/category/key`, named `.` + lower(provider) + `.key`; the two files differ |
| `Paths.GetPathsIgnoresCase` | credential_handler.py:25-26 | a provider and its lower-cased form give the same two files |
| `Paths.GetPathsInjective` | credential_handler.py:21-26 | two entries share a ciphertext file (or a key file) if and only if their categories are equal and their providers are equal up to case |
| `Paths.TokenFileNeverKeyFile` | credential_handler.py:21-22 | no entry's ciphertext file is any entry's key file |
| `Paths.PrefixesOfLeaf` | credential_handler.py:16 | makedirs of `base/c/a` ensures exactly the directories above `base`, `base`, `base/c` and `base/c/a` |
| `Paths.LayoutDirsExactly` | credential_handler.py:14-16 | the directories ensure_dirs guarantees are exactly `base`, the directories above it, `base/{tokens,apis}` and `base/{tokens,apis}/{encrypted,key}` |
| `Paths.EntryFilesInLayout` | credential_handler.py:21-22 | for the categories tokens and apis, both files of an entry lie in layout directories and neither is a layout directory |
| `Credentials.EnsureDirsStep` | credential_handler.py:12-16 | files are unchanged; a directory exists afterwards if and only if it existed before or belongs to the layout |
| `Credentials.GenerateKeyStep` | credential_handler.py:31-38 | an existing key file is returned unchanged and the disk is untouched; a missing one is created with the new key, which is returned; it fails, with MissingDirectory, exactly when the key file is missing and its directory is missing too; no other file changes |
| `Credentials.GetCipherStep` | credential_handler.py:41-44 | leaves the disk as generate_key does; returns the generate_key key exactly when the cipher accepts it; fails with MalformedKey when the cipher refuses it; passes a generate_key failure (MissingDirectory) through unchanged |
| `Credentials.SaveStep` | credential_handler.py:47-54 | save adds the layout directories; on success the ciphertext file holds an encryption of the stripped text under the key in the key file; an existing key file keeps its bytes; no other file changes; on failure the ciphertext file is untouched |
| `Credentials.SaveSucceedsIff` | credential_handler.py:49-54 | for tokens and apis, save succeeds if and only if the key file is missing or the cipher accepts its key |
| `Credentials.SaveLeavesOtherEntries` | credential_handler.py:50-54 | save leaves both files of every other entry as they were (presence and bytes) |
| `Credentials.SaveThenLoad` | credential_handler.py:47-69 | after a successful save, loading the same entry (provider in any case) returns the stripped text and changes nothing, for any cipher with the round-trip property |
| `Credentials.LoadNotFound` | credential_handler.py:59-62 | without a ciphertext file, load returns "" and only ensures the layout |
| `Credentials.LoadStep` | credential_handler.py:57-69 | load adds the layout directories; the only file it can write is the entry's key file, with the new key; for tokens and apis it does create that file whenever the ciphertext exists and the key file does not; for any cipher the text is "" when the ciphertext file is missing, the key is refused or the key directory is missing, or decryption fails, and otherwise it is the decrypted text |
| `Credentials.LoadWithoutKeyStrands` | credential_handler.py:61-69 | with the key file deleted, load creates it with the new key and returns "", because the ciphertext was made under another key (assuming a wrong key always fails) |
| `Credentials.LoadOnlyAuthentic` | credential_handler.py:63-69 | for a cipher with the integrity property, a non-empty loaded text is one that the ciphertext file encrypts under the key the key file holds; a ciphertext that no encryption under that key produced loads as "" |
| `Credentials.StepsPreserveWellFormed` | credential_handler.py:47-69 | save and load keep every file inside an existing directory |
| `Credentials.CredentialStore.constructor` | credential_handler.py:7 | the base directory is fixed from the working directory; the disk is the given one |
| `Credentials.CredentialStore.MakeDirs` | credential_handler.py:16 | os.makedirs with exist_ok: the path and every directory above it are added; files are unchanged |
| `Credentials.CredentialStore.WriteFile` | credential_handler.py:35-36 | open for writing succeeds if and only if the parent directory exists; the file then holds the given bytes and nothing else changes |
| `Credentials.CredentialStore.EnsureDirs` | credential_handler.py:12-16 | the nested loops leave the state as EnsureDirsStep describes; when the layout already exists, nothing changes |
| `Credentials.CredentialStore.GenerateKey` | credential_handler.py:31-38 | result and new state agree with GenerateKeyStep |
| `Credentials.CredentialStore.GetCipher` | credential_handler.py:41-44 | result and new state agree with GetCipherStep |
| `Credentials.CredentialStore.SaveData` | credential_handler.py:47-54 | result and new state agree with SaveStep |
| `Credentials.CredentialStore.LoadData` | credential_handler.py:57-69 | returned text and new state agree with LoadStep |
| `Ui.SaveInput` | credential_handler.py:138-142 | refuses (Missing Data) exactly the blank entries; otherwise passes on the stripped, non-empty entry |
| `Ui.LaunchInput` | credential_handler.py:149-160 | Invalid Action if and only if the category is not tokens or the lower-cased provider is not discord; Missing Token if and only if it is a Discord token with a blank entry; otherwise launches the stripped, non-empty entry |
| `Ui.LaunchBot` | credential_handler.py:72-84 | missing bot script if and only if the file check fails; on launch the arguments are `python main.py` and the child environment is the parent's plus DISCORD_TOKEN mapped to the token; the launch succeeds if and only if the spawn succeeds |
| `Ui.SaveInputThenSave` | credential_handler.py:139-143 | saving the entry on_save passes on stores the same result as saving the raw entry |
| `Ui.LaunchOnlyForDiscordToken` | credential_handler.py:150 | any launch the window allows is for the entry whose ciphertext is `base/tokens/encrypted/.discord.token` |
| `Ui.SavedTokenReachesBot` | credential_handler.py:134-160 | a Discord token that is saved, shown again on reload and then launched is what the launch guard passes to launch_bot, which puts it under DISCORD_TOKEN: the stripped entry, for any cipher with the round-trip property |

## Left out

- The Tk window (credential_handler.py:88-177): widgets, dropdown values, the visibility toggle and message boxes. Each message box appears only as the outcome value that selects it.
- Process spawning in `launch_bot`: whether `main.py` exists and whether `subprocess.Popen` succeeds are parameters. The parent environment is a parameter standing for `os.environ`.
- The internals of Fernet: key generation, AES, the HMAC, IV and timestamp drawing. The key `Fernet.generate_key()` would return and the IV/timestamp material are parameters. That two encryptions of the same text differ is not claimed.
- `WrongKeyFails` and `Integrity` are idealisations, and only `Credentials.LoadWithoutKeyStrands` and `Credentials.LoadOnlyAuthentic` rely on them. Fernet decodes keys and tokens with a non-validating base64 decoder, which skips bytes outside the alphabet. So a key file or ciphertext file with, say, a newline appended still works, and the model treats keys and tokens as canonical byte strings. Fernet also rejects another key only with overwhelming probability, not always. The round trip (`RoundTrip`) is the only property the save-then-load lemmas assume.
- UTF-8 encoding and decoding are folded into the cipher's text-to-bytes functions. A decoding failure counts as a decryption failure, and that gives "" as well.
- `os.getcwd()` is a constructor parameter. `os.path.join` is concatenation of segments. Three kinds of label are therefore not modelled: a category or provider containing a path separator, one equal to `..`, and an empty category, which `os.path.join` drops (giving `BASE_DIR/encrypted`) where the model keeps an empty segment.
- Text.Lower: lower-cases ASCII letters only. Python's `str.lower()` also maps non-ASCII letters, so files for non-ASCII provider labels are not modelled exactly.
- Files and directories are kept apart. The model does not fail in either of these cases: a directory sitting where a key or ciphertext file should be (`open` raises), or a file sitting where a layout directory should be (`makedirs` raises).
- Other I/O failures are not modelled: permissions, full disk, read errors.
- Writes happen in one step. `open(..., "wb")` truncates before writing, so a concurrent reader could observe a truncated file; concurrency is out of scope.
- bot.py is not part of this model.
