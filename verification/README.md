# service_enum in Dafny

`service_enum.py` enumerates SMB, LDAP and FTP on one host. It reads a YAML
configuration that names an address (`ip`) and a list of service names
(`services`), validates its shape, runs the external tools for each requested
service (`smbclient`, `rpcclient`, `nmap` with the `ldap-search` and
`ftp-anon` scripts), collects their raw output into one mapping and writes that
mapping to `service_enum_results_<ip>.yaml`.

This project models the parts of the script that carry logic:

- `Validation` (validation.dfy): the parsed YAML document as a datatype
  (`Null | Bool | Int | Str | List | Map`, with scalar mapping keys). It also
  holds `validate_yaml` as `Validate`, which returns `Pass` or the first of
  four ordered errors: `NotObject`, `MissingKeys`, `ServicesNotList` and
  `NonStringService`.
- `Enumeration` (enumeration.dfy): the four command lines and the three
  enumerators. Running a command is modelled as an answer from the outside
  world. A `Responder` gives the `CommandResult` (stdout, stderr, return code)
  for the n-th command of the run, given that command's text. So two runs of
  the same command may answer differently.
- `Dispatch` (dispatch.dfy): `process_services`. `ProcessServices` is a loop
  that builds the results map in place, one requested name at a time. It is
  proved against the specification function `DispatchAll`. Besides the map,
  it returns the list of commands it issued, in order, which stands for the
  processes the script spawns.
- `Persistence` (persistence.dfy): the output file name derived from the
  address.
- `Wrappers` (wrappers.dfy): `Option` and `Outcome`.

The SMB share-listing command is written in Python as `f"smbclient -L \\{ip} -N"`.
This produces a single backslash before the address. The model keeps that
backslash: see `Enumeration.CommandLineText`.

## Model

| member | source | states |
|---|---|---|
| `Validation.Validate` | service_enum.py:56-65 | Each of the four errors is returned exactly when its rule is the first one violated, in source order: not a mapping; then `ip` or `services` missing; then `services` not a list; then some element not a string. Success holds exactly when the document conforms to the declarative schema `Conforms`. |
| `Validation.AllStrings` | service_enum.py:64 | The element-by-element `all(isinstance(s, str) ...)` is true exactly when every element is a string, so it is also true of the empty list. |
| `Validation.Message` | service_enum.py:59-65 | The text of each rule's ValueError, as in the source. Each is one sentence ending with a full stop. |
| `Validation.MessagesDistinct` | service_enum.py:58-65 | The four error messages are pairwise different, so each rule is reported with its own message. |
| `Validation.ServiceNames` | service_enum.py:97 | For an accepted document, the service names passed to the dispatcher are the strings of the `services` list, in order and of the same length. |
| `Validation.AcceptsEveryDocument` | service_enum.py:56-65 | Every mapping holding `ip` with a value of any type, `services` with a list of strings (empty included) and any other keys is accepted. |
| `Validation.AcceptedIsDocument` | service_enum.py:56-65 | Every accepted document is such a mapping. With `AcceptsEveryDocument`, this shows that acceptance is exactly this shape. |
| `Validation.IpNeverInspected` | service_enum.py:60-65 | Replacing the value under `ip` by any value never changes the verdict. |
| `Validation.MinimalDocuments` | service_enum.py:58-65 | Gives one minimal rejected document per rule, with its error: a list; a mapping with only `ip`; a mapping with only `services`; a string for `services`; an integer in `services`. Also shows that `{ip: null, services: []}` passes. |
| `Enumeration.CommandLine` | service_enum.py:25-37 | A command line is the tool's fixed prefix, then the address verbatim, then the tool's fixed suffix. |
| `Enumeration.CommandLineText` | service_enum.py:25-37 | Gives the four command lines exactly as the f-strings build them, with one backslash before the SMB address. |
| `Enumeration.ParseCommandLineRoundTrip` | service_enum.py:25-37 | Parsing a command line gives back its tool and its address. |
| `Enumeration.ParseCommandLineSound` | service_enum.py:25-37 | Whatever parses is exactly the command line of the tool and address it parses to. |
| `Enumeration.CommandLineInjective` | service_enum.py:25-37 | Different tools or different addresses never produce the same command line. |
| `Enumeration.Commands` | service_enum.py:21-37 | Each enumerator's command list has one command per tool it runs, and the i-th command is the i-th tool's command aimed at the address. |
| `Enumeration.CommandsListed` | service_enum.py:24-37 | SMB runs `smbclient` then `rpcclient`. LDAP and FTP each run their one `nmap` probe. |
| `Enumeration.Enumerate` | service_enum.py:21-37 | Only SMB returns a keyed result, with exactly the keys `smbclient` and `rpcclient`. LDAP and FTP return the answer to their single command directly. |
| `Enumeration.EnumerateAnswersItsCommands` | service_enum.py:21-37 | The SMB result is a mapping with exactly the keys `smbclient` and `rpcclient`, holding the answers to its first and second commands. LDAP and FTP return the answer to their single command directly. |
| `Dispatch.Lookup` | service_enum.py:41-48 | A name is found exactly when it is `smb`, `ldap` or `ftp` (exact match). The service found is the one registered under that name. |
| `Dispatch.LookupName` | service_enum.py:41-45 | Every service is found under its own name. |
| `Dispatch.Step` | service_enum.py:47-53 | One iteration. An unknown name changes nothing. A known name is stored with its enumerator's result, whose first command is the next call of the run. Exactly that enumerator's commands are appended to the log. No other key appears, disappears or changes value. |
| `Dispatch.DispatchAll` | service_enum.py:39-54 | The whole dispatch as a function of the address, the requests and the answers. Every key of the result is a requested name that is recognised. |
| `Dispatch.Recognised` | service_enum.py:48-53 | Filters the requests down to recognised names only. |
| `Dispatch.RecognisedAppend` | service_enum.py:47-53 | The filter distributes over concatenation, so it keeps the order of the requests. |
| `Dispatch.RecognisedCounts` | service_enum.py:47-53 | Each recognised name occurs in the filtered requests exactly as often as it was requested, duplicates included. Unrecognised names never occur there. |
| `Dispatch.IssuedPerRequest` | service_enum.py:47-53 | Processing request j appends exactly its enumerator's commands to the log, once. An unrecognised request appends nothing. |
| `Dispatch.DispatchKeySet` | service_enum.py:41-53 | The result's keys are exactly the distinct recognised names requested. |
| `Dispatch.UnknownNamesIgnored` | service_enum.py:48-53 | Dispatching the requests equals dispatching only their recognised names. So unknown names leave no key, run no command and never stop later names from being processed. |
| `Dispatch.LastWriteWins` | service_enum.py:47-51 | The value stored under a name is its enumerator's result for the last occurrence of that name. That run starts after every command issued for the earlier requests. |
| `Dispatch.IssuedGrows` | service_enum.py:47-51 | The commands issued for a prefix of the requests are a prefix of those issued for all of them. |
| `Dispatch.OccurrenceRunsItsCommands` | service_enum.py:47-51 | Every recognised occurrence, duplicates included, issues its enumerator's commands in order. They come right after the commands of the requests before it. |
| `Dispatch.ProcessServices` | service_enum.py:39-54 | The in-place loop computes exactly `DispatchAll`: the same results map and the same command sequence. Its key set is the set of distinct recognised names. |
| `Dispatch.SmbScenario` | service_enum.py:21-54 | For `10.0.0.5` and `[smb]`: the result has one key `smb` holding `smbclient` and `rpcclient` answers, and the two SMB commands ran in order. |
| `Dispatch.UnknownScenario` | service_enum.py:47-54 | For `[telnet]`: the result is empty and no command runs. |
| `Dispatch.RepeatScenario` | service_enum.py:34-54 | For `[ftp, ftp]`: the FTP probe runs twice, and the single key `ftp` holds the second answer. |
| `Persistence.OutputFileName` | service_enum.py:69 | The file name is the fixed prefix, then the address verbatim, then `.yaml`. |
| `Persistence.OutputFileNameText` | service_enum.py:69 | The name is `"service_enum_results_" + ip + ".yaml"`, for example `service_enum_results_10.0.0.5.yaml`. |
| `Persistence.AddressOfOutputFileNameRoundTrip` | service_enum.py:69 | The address can be read back from its output file name. |
| `Persistence.OutputFileNameOfAddress` | service_enum.py:69 | Every name of the output-file shape is the output file of the address read from it. |
| `Persistence.OutputFileNameInjective` | service_enum.py:69 | Two file-name strings are equal exactly when the addresses are. A rerun for one address uses the same name. (Path normalisation can still make different addresses open the same file; see "Left out".) |

## Left out

- `run_command` (service_enum.py:5-19) spawns a shell process. Its answer is
  the opaque `CommandResult` that a `Responder` supplies. Whitespace
  stripping, the mapping of a missing stdout or stderr to `""`, and the missing
  timeout are not modelled.
- The `Responder` always answers, but `run_command` can raise. With
  `text=True` (service_enum.py:8), output that does not decode raises
  `UnicodeDecodeError`, which is not the `CalledProcessError` caught at
  line 14. It then propagates out of the enumerator and `process_services`,
  and `main` reports it at line 108. `save_results` (line 102) never runs, so
  every result of the run is lost. The model has no such failure path.
- The console diagnostics (every `print`) have no effect on results and are
  left out, including the notice for an unknown service.
- YAML parsing (`load_yaml`) and serialisation (`yaml.dump`) are library code
  that is not part of this model. So is the round trip of the results file.
  The model starts from an already parsed `Value`.
- YAML scalars other than null, booleans, integers and strings are not
  modelled (floats, dates). For every check of `validate_yaml` they behave like
  `Int`: not a mapping, not a list, not a string. Mapping keys are scalars
  only.
- The file writing in `save_results` and its exception handling
  (service_enum.py:70-75) are left out. Only the file name string is
  modelled.
- Persistence.OutputFileNameInjective: holds for the name string only.
  `pathlib.Path` (service_enum.py:69) collapses repeated slashes and `/./`
  segments. Since addresses are not validated, `a//b`, `a/./b` and `a/b` open
  the same file `service_enum_results_a/b.yaml`.
- `main` (service_enum.py:85-109) is left out: the interactive prompt, the
  file-existence check and the broad exception handlers. It runs
  `validate_yaml` before `process_services` (lines 94 and 100). The address
  reaches the command lines through Python's `str()` of whatever value `ip`
  holds, and the model takes the address as a string.
- Dispatch.ProcessServices: the results map is a Dafny `map`. It does not
  record Python's dict insertion order, where a repeated key keeps its first
  position.
- The shell-injection exposure of building command lines by interpolation is a
  security observation, not behaviour, and is not modelled.
