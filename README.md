# infraninja inventory client and SSH key cache, in Dafny

This project models the two parts of infraninja that hold logic of their own.

**The Jinn inventory client** (`infraninja/inventory/jinn.py`) takes the decoded
`{"result": [server, ...]}` response of the Jinn API and computes several things:
- the sorted, distinct group names and tag names;
- the project name;
- one pass of the group prompt: `*` or empty for all groups, otherwise space-separated 1-based indices;
- the group/active filter;
- one pass of the tag prompt and the tag filter;
- the `(ssh_hostname, attributes)` host list, with its key-override order.

The same file also holds the local SSH config helpers. One is the file-name prompt
(`get_valid_filename`). The other makes sure the main `~/.ssh/config` carries an `Include`
line for the config directory (`update_main_ssh_config`).

**`SSHKeyManager`** (`infraninja/utils/pubkeys.py`) is a singleton that caches four
attributes: the API base URL, the credentials, the session key and the fetched SSH keys.
Python resolves `self._x` on the instance first and on the class after that. Every
`self._x = ...` write creates an instance attribute, while `clear_cache` resets class
attributes only. The model therefore keeps both layers. `ClassAttrs` and the class
`KeyManagerClass` hold the class attributes. `InstanceAttrs` and the class `SSHKeyManager`
hold what one instance has assigned, one `Slot` per attribute.

Each operation is a step function on a snapshot of both layers. The step function returns
the new snapshot, the result, the HTTP requests sent and the number of credential prompts.
Each method performs the same operation in place and is proved equal to its step function.

The modules are as follows:
- `Values` holds JSON values, Python truthiness and `dict.get`.
- `Text` holds ASCII `isspace`/`isalnum`, `strip`, `split()`, `int()`, substring search and `os.path.basename`.
- `Seqs` holds list comprehensions with a condition (`Filter`) and set unions over a list.
- `SortedStrings` holds `sorted(set)` for Python's code-point order on strings.
- `Jinn`, `SshConfig` and `PubKeys` model the source files.
- `JinnScenario` works one five-server inventory through the whole pipeline.

The model takes several things as parameters instead of performing them:
- the environment variables (`JINN_GROUPS`, `JINN_TAGS`, `JINN_API_URL`);
- what the user types at `input()` and `getpass`;
- the outcome of each HTTP request: an exception, or a status and a body.

## Model

| member | source | states |
|---|---|---|
| Jinn.GroupsFromData | infraninja/inventory/jinn.py:24-31 | The groups are strictly sorted, so there are no duplicates. A name is listed iff some server's `group.name_en` is that non-empty string. No groups are listed when `result` is missing. |
| SortedStrings.SortedOf | infraninja/inventory/jinn.py:31 | `sorted(list(s))` of a set is strictly sorted, has exactly the set's members, and has the set's size. |
| Jinn.KeptTagsMembers | infraninja/inventory/jinn.py:38-40 | A tag is kept from one server's list iff some entry is a string that is neither empty nor all whitespace. |
| Jinn.TagsFromData | infraninja/inventory/jinn.py:34-41 | The tags are strictly sorted. A tag is listed iff some server carries it as a non-empty, non-whitespace string. |
| Jinn.ProjectName | infraninja/inventory/jinn.py:111-114 | A missing or empty `result` gives "default". |
| Jinn.ProjectNameIsFirst | infraninja/inventory/jinn.py:116-120 | The first server, in list order, with a truthy `group.project.name_en` supplies the project name. |
| Jinn.ProjectNameDefault | infraninja/inventory/jinn.py:111-122 | Without any such server, the project name is "default". |
| Jinn.Endpoint | infraninja/inventory/jinn.py:131-132 | The URL is the base URL with its trailing slashes removed, followed by the endpoint. No '/' remains just before the endpoint. |
| Jinn.EndpointIgnoresTrailingSlash | infraninja/inventory/jinn.py:51 | A trailing slash on the base URL does not change the endpoint URL. |
| Text.SplitJoin | infraninja/inventory/jinn.py:160 | `split()` of whitespace-free tokens joined with single spaces gives the tokens back. |
| Text.ParseDecimal | infraninja/inventory/jinn.py:160 | `int()` of the decimal text of a natural number gives that number. |
| Jinn.ParseIndices | infraninja/inventory/jinn.py:160 | The token list converts iff every token is an integer literal. The converted list then has one value per token, in order. |
| Jinn.ParseGroupChoice | infraninja/inventory/jinn.py:155-164 | `*` and the empty choice select every group. Any other choice selects by index, or is rejected. |
| Jinn.GroupsAt | infraninja/inventory/jinn.py:162-163 | A selection exists iff every index lies in `1..len(groups)`. Entry k is then `groups[i_k - 1]`, in the order typed, with duplicates kept. |
| Jinn.SelectGroupsByIndex | infraninja/inventory/jinn.py:158-164 | Typing in-range indices selects `groups[i - 1]` for each index, in the order typed. |
| Jinn.OutOfRangeIndexRejected | infraninja/inventory/jinn.py:162-165 | A single index of 0 or above `len(groups)` rejects the whole choice, so the prompt runs again. |
| Jinn.EnvGroupChoiceIsSticky | infraninja/inventory/jinn.py:148-150 | While `JINN_GROUPS` is non-empty, every pass of the prompt sees the same choice whatever is typed. A rejected value is therefore rejected on every pass. |
| Jinn.SelectGroups | infraninja/inventory/jinn.py:147-172 | A group passed by the caller is the whole selection. Otherwise `*` or "" selects every listed group, and any other choice selects the groups at its typed 1-based indices (`GroupsAt` of `ParseIndices`), or nothing when a token is not an integer or an index is out of range. |
| Jinn.ActiveInGroups | infraninja/inventory/jinn.py:175-180 | The result is an order-preserving subsequence of `result`. It has exactly the servers of a selected group with a truthy `is_active`, each as often as in `result`. |
| Jinn.SelectedTags | infraninja/inventory/jinn.py:197-200 | The selected tags are exactly the tags at 1-based indices in `1..len(tags)`. Other indices are dropped silently. |
| Jinn.FilterByTags | infraninja/inventory/jinn.py:183-208 | The result is an order-preserving subsequence. It is unchanged when no tag is listed, for "" and `*`, and when a token is not an integer. Otherwise a server is kept iff one of its tags is selected, and each kept server occurs as often as in the input. |
| Jinn.FilterByTagsCount | infraninja/inventory/jinn.py:183-208 | In one statement for every server: the tag step keeps all copies of a server exactly when `TagStepKeeps` holds (the step is skipped, or the server carries a picked tag), and otherwise keeps none. |
| Jinn.AllTagIndicesOutOfRange | infraninja/inventory/jinn.py:197-206 | When every index is out of range, no server is left. |
| Jinn.ResolvedServers | infraninja/inventory/jinn.py:175-208 | The servers left after both filters are a subsequence of `result`. A server is kept, with all its copies (`Occurrences`), exactly when `Resolves` holds: it is in a selected group, active, and kept by the tag step (`TagStepKeeps`: the step is skipped, or the server carries a picked tag). Every other server is dropped, and membership holds in both directions. |
| Jinn.HostAttrsKeys | infraninja/inventory/jinn.py:214-226 | A host's keys are: its `attributes` keys, `ssh_user`, `is_active`, `group_name`, `tags`, and every top-level key except the five reserved ones. |
| Jinn.HostAttrsExplicit | infraninja/inventory/jinn.py:216-219 | `ssh_user`, `is_active` (default False) and `tags` (default []) come from the server, overriding `attributes`. `group_name` is the group's `name_en` unless a top-level `group_name` replaces it. |
| Jinn.HostAttrsLayers | infraninja/inventory/jinn.py:215-225 | Unreserved top-level keys override everything. `attributes` supply only the keys that neither later layer sets. |
| Jinn.BuildHosts | infraninja/inventory/jinn.py:211-229 | The list exists iff every server has `ssh_hostname`, since otherwise a KeyError is raised. It then has one host per server, in order, with hostname `ssh_hostname` and the layered attributes. |
| Jinn.FetchServers | infraninja/inventory/jinn.py:138-237 | There is a result iff the group choice is accepted. With every hostname present, it is one host per resolved server, in order, made of that server's `ssh_hostname` and layered attributes, plus the project name. A missing hostname gives `([], "default")`. |
| Jinn.BuiltHostsAreActive | infraninja/inventory/jinn.py:217 | Hosts built from active servers carry a truthy `is_active` attribute. |
| Jinn.FetchedHostsAreActive | infraninja/inventory/jinn.py:175-231 | Every returned host has a truthy `is_active`. A non-empty list is built entry by entry from the resolved servers, each in a selected group. |
| JinnScenario.ScenarioResolved | infraninja/inventory/jinn.py:147-208 | On the worked inventory, answering "1" selects "prod". Tag "1" ("db") then leaves the first and fourth servers. |
| JinnScenario.ScenarioFetch | infraninja/inventory/jinn.py:141-231 | On the worked inventory, group 1 and tag 1 give the hosts "db-1" and "db-3", in that order. |
| SshConfig.ValidFilenameAsWritten | infraninja/inventory/jinn.py:89-108 | Blank input gives the default. Otherwise a name is accepted iff every character of the basename is alphanumeric or one of `-_.`. An accepted name is exactly the basename of the stripped input, so it has no '/'. |
| SshConfig.DirectoryNamesAccepted | infraninja/inventory/jinn.py:99-108 | "cfg/" is accepted as the empty name, and ".." is accepted as it is. |
| SshConfig.TrailingSlashAccepted | infraninja/inventory/jinn.py:99-108 | Any non-empty answer ending in '/' is accepted as the empty name, whatever blanks or directories precede it. |
| SshConfig.PlainNameAccepted | infraninja/inventory/jinn.py:99-108 | An answer of allowed characters without '/' is accepted unchanged. |
| SshConfig.ValidFilename | infraninja/inventory/jinn.py:89-108 | The corrected check: blank input gives the default. Otherwise the answer is accepted iff its basename is a non-empty allowed name other than "." and "..", and the accepted value is that basename. |
| SshConfig.ValidFilenameDiffers | infraninja/inventory/jinn.py:99-102 | The corrected check differs from the written one exactly when the basename is "", "." or "..". |
| SshConfig.ValidFilenameKeepsName | infraninja/inventory/jinn.py:92-108 | A safe name typed after a whitespace-free directory path and a '/', with one blank before and one after, is accepted as that name. |
| SshConfig.UpdatedIncludes | infraninja/inventory/jinn.py:78-85 | Afterwards the main config contains the Include line, and the old content is a prefix of it. Content that already holds the line is left as it is. |
| SshConfig.UpdatedIdempotent | infraninja/inventory/jinn.py:74-86 | Running the update twice gives the same content as running it once. |
| SshConfig.MainSshConfig.UpdateMainSshConfig | infraninja/inventory/jinn.py:74-86 | The file afterwards exists and holds exactly the updated content. |
| PubKeys.KeyManagerClass.constructor | infraninja/utils/pubkeys.py:27-32 | Every class attribute starts as None, and there is no instance yet. |
| PubKeys.KeyManagerClass.GetInstance | infraninja/utils/pubkeys.py:34-39 | Once an instance exists, every call returns that same instance and changes nothing. The first call creates a fresh instance with no attributes of its own. |
| PubKeys.SSHKeyManager.constructor | infraninja/utils/pubkeys.py:41-46 | The class base URL is taken from the environment only while it is None. The instance starts with no attributes of its own. |
| PubKeys.BaseUrlStep | infraninja/utils/pubkeys.py:48-55 | A truthy cached URL is returned, and the state is unchanged. Otherwise the environment's value, even None or "", is assigned to the instance's base URL slot and to no other slot; it is returned only when it is non-empty. The class attributes never change. |
| PubKeys.SSHKeyManager.GetBaseUrl | infraninja/utils/pubkeys.py:48-55 | The new state and the result are those of `BaseUrlStep`. |
| PubKeys.CredentialsStep | infraninja/utils/pubkeys.py:57-67 | Cached credentials are returned with no prompt, and the state is unchanged. Otherwise exactly one prompt occurs. Its answer is returned and assigned to the instance's credentials slot, and no other slot or class attribute changes. |
| PubKeys.SSHKeyManager.GetCredentials | infraninja/utils/pubkeys.py:57-67 | The new state, the result and the prompt count are those of `CredentialsStep`. |
| PubKeys.AuthRequestStep | infraninja/utils/pubkeys.py:69-92 | Without a truthy session, no request is made and the result is None. Otherwise exactly one request carries the session, and its body is returned iff the status is 200. |
| PubKeys.SSHKeyManager.MakeAuthRequest | infraninja/utils/pubkeys.py:69-92 | The result and the requests sent are those of `AuthRequestStep`. |
| PubKeys.LoginStep | infraninja/utils/pubkeys.py:94-127 | A truthy cached session short-circuits with true. Otherwise the base URL is the cached one or the environment's. Without a base URL the result is false, with no request and no prompt. With one, exactly one POST goes to `<base>/login/`, carrying the cached credentials or, after one prompt, the typed ones. A 200 JSON reply assigns its `session_key` on the instance, and the result is that key's truthiness. Any other outcome gives false and leaves the session as it was. The new instance layer is stated in full: without a base URL only the environment's URL is assigned, and with one the credentials and session are assigned as above and nothing else changes. |
| PubKeys.SSHKeyManager.Login | infraninja/utils/pubkeys.py:94-127 | The new state, the result, the requests and the prompts are those of `LoginStep`. |
| PubKeys.LoginIsCached | infraninja/utils/pubkeys.py:96-97 | A login after a successful one sends nothing and prompts for nothing. |
| PubKeys.KeysOf | infraninja/utils/pubkeys.py:147 | The keys exist iff every item has a `key` field, since otherwise a KeyError is raised. They are then those fields, in order. |
| PubKeys.KeysStep | infraninja/utils/pubkeys.py:129-151 | Non-empty cached keys without `force_refresh` are returned with no request. Otherwise, when the login succeeds, a base URL is available and the GET of `<base>/ssh-tools/ssh-keylist/` meets a 200 reply, the result is the `key` fields of `result` in order, cached on the instance. It is None when the body lacks them. Conversely, a fetched result needs exactly that 200 reply. On None the keys are unchanged. Whenever it fetches, the prompts, session and credentials are the login's. The requests are the login's followed by the one GET, sent only when the login succeeded and a base URL is available. The new state is the login's, with the base URL step and the fetched keys applied on top. |
| PubKeys.SSHKeyManager.FetchSshKeys | infraninja/utils/pubkeys.py:129-151 | The new state, the result, the requests and the prompts are those of `KeysStep`. |
| PubKeys.FetchIsCached | infraninja/utils/pubkeys.py:131-132 | A non-forced fetch after one that returned keys returns the same keys and sends nothing. |
| PubKeys.FetchFromFreshManager | infraninja/utils/pubkeys.py:129-148 | From a fresh manager with `JINN_API_URL` set, a login reply carrying a truthy session key and a 200 key-list reply: one prompt, a POST of the typed credentials to `<base>/login/` and a GET of `<base>/ssh-tools/ssh-keylist/` with that session. The result is the reply's key list, cached on the instance. |
| PubKeys.FetchFailsWithoutLogin | infraninja/utils/pubkeys.py:134-135 | When the fetch has to go to the server and the login fails, the result is None and only the login's requests were sent. |
| PubKeys.ClearCacheStep | infraninja/utils/pubkeys.py:178-190 | The class keys, credentials and session are reset to None. Every other class attribute and the whole instance layer stay as they were. So a value the instance assigned survives, and the base URL is unchanged. |
| PubKeys.SSHKeyManager.ClearCache | infraninja/utils/pubkeys.py:178-190 | The method returns true, and the new state is that of `ClearCacheStep`. |
| PubKeys.StaleSessionAfterClearCache | infraninja/utils/pubkeys.py:186-188 | After a successful login and `clear_cache`, the session is still in force, and the next login sends nothing. |
| PubKeys.StaleKeysAfterClearCache | infraninja/utils/pubkeys.py:186-188 | Keys fetched from the server survive `clear_cache`, and the next fetch returns them without a request. |
| PubKeys.ClearAllCachesStep | infraninja/utils/pubkeys.py:178-190 | The corrected clear: keys, credentials and session are gone from both layers, and the base URL is kept. |
| PubKeys.SSHKeyManager.ClearAllCaches | infraninja/utils/pubkeys.py:178-190 | The method returns true, and the new state is that of `ClearAllCachesStep`. |
| PubKeys.FreshLoginAfterClearAll | infraninja/utils/pubkeys.py:94-113 | After the corrected clear, a login prompts once and posts the fresh credentials. |
| PubKeys.FreshFetchAfterClearAll | infraninja/utils/pubkeys.py:129-135 | After the corrected clear, a non-forced fetch logs in again before it can return keys. |

## Left out

- HTTP, the environment, `input()` and `getpass` are not modelled as effects. Their outcomes are parameters, and the requests sent are recorded as values.
- The reprompt loops of `get_valid_filename` and of the group prompt are modelled as one pass that returns None where the source prompts again. Their non-termination under a bad `JINN_GROUPS` is stated as `Jinn.EnvGroupChoiceIsSticky`.
- `fetch_ssh_config` and `save_ssh_config` (jinn.py:44-71) are left out because they are network and file I/O. Only their URL join is modelled, as `Jinn.Endpoint`.
- The request and JSON decoding at the start of `fetch_servers` (jinn.py:130-135) are left out. The model starts from the decoded response.
- The `RequestException` handler of `fetch_servers` is left out, since it belongs to that I/O.
- The logging in `fetch_servers` and elsewhere is left out.
- The script body of jinn.py (lines 244-274) is left out because it only orchestrates I/O.
- `SSHKeyManager.add_ssh_keys` is left out because it is a call into pyinfra operations.
- The `threading.RLock` is left out. The model is sequential.
- The Authorization, Cookie and Content-Type headers are left out. A request records only its URL together with the session key or the credentials.
- `isspace`, `isalnum`, `strip`, `split` and `int()` are modelled on ASCII only. Unicode whitespace and digits are not modelled.
- Jinn.GroupOf: a `group` that is not an object reads as `{}`. This covers null, a string and a number. The source's `.get` raises AttributeError on such a value, and `fetch_servers` then falls back to `([], "default")` through its generic handler.
- Jinn.NamedGroup: a truthy `group.name_en` that is not a string is ignored. For a number or a bool, the source adds it to the group set (jinn.py:29-31). `sorted` raises TypeError only when it is mixed with strings, and the join at jinn.py:169 raises only on the prompt path. With an explicit group, the source lists the value and simply never matches it. For a list or an object, `groups.add` at jinn.py:30 raises TypeError (unhashable), so `fetch_servers` returns `([], "default")` through jinn.py:239-241. The model still lists the other groups and goes on.
- Jinn.Tags: a `tags` value that is not a list reads as no tags. The source iterates a string or an object at jinn.py:38 and jinn.py:205: a string "db" gives the tags 'd' and 'b', and an object gives its keys. A `tags` of null, a number or a bool raises TypeError there, for an active server of a selected group. `fetch_servers` then returns `([], "default")` through jinn.py:239-241, where the model still returns hosts.
- Jinn.KeptTag: a tag list entry that is truthy but not a string is skipped. In the source, `tag.isspace()` raises AttributeError on it at jinn.py:39.
- Jinn.HasSelectedTag: a list entry that is a list or an object never matches a selected tag. In the source, `tag in selected_tags` raises TypeError on it at jinn.py:205, since such values are unhashable.
- Jinn.Attributes: an `attributes` value that is not an object reads as `{}`. The source's `**` raises TypeError on it at jinn.py:215.
- Values.Value: JSON numbers that are not integers are not modelled, since floating point is outside the model. An `is_active` of 0.0 is therefore not represented.
- Jinn.ProjectName: a truthy `group.project.name_en` that is not a string, such as a number, is returned by the source. The model treats it as absent and moves on to the next server. A truthy `group.project` that is not an object, such as "acme", makes `project.get` raise AttributeError at jinn.py:119, so `fetch_servers` returns `([], "default")`. The model skips that server instead.
- SshConfig.MainSshConfig.UpdateMainSshConfig: the file is modelled as LF text that reads back as written. The source reads it in text mode (jinn.py:80-81), so universal newlines turn CRLF into LF, and a file already holding `\r\nInclude <dir>/*\r\n` is left alone there, while `Updated` appends a second Include line. Decode errors and other I/O errors are not modelled.
- PubKeys.LoginStep: a 200 JSON login reply that is not an object raises AttributeError in the source. The model treats its `session_key` as None, so the login fails.
- PubKeys.KeysStep: the model accepts only a JSON object body whose `result` is a list of objects, and gives None with the old keys kept otherwise. The source differs from that at pubkeys.py:146-147 in several cases. A `result` of `{}` or `""` is iterated as empty, so the source returns and caches `[]`. A body that is not an object raises TypeError. So do a `result` that is a non-empty string or object, or not iterable, and an item that is not an object. Those TypeErrors are not caught at pubkeys.py:149, so they leave `fetch_ssh_keys` as exceptions.

## Findings

| source | as written | input that shows it | evidently intended | confidence | as-written member | corrected member |
|---|---|---|---|---|---|---|
| infraninja/inventory/jinn.py:99-108 | The character check runs on `os.path.basename` of the answer. That check holds for an empty basename and for "." and "..". | "cfg/" is returned as "", and ".." is returned as ".."; each names a directory, not a file in the config directory | Reject empty, "." and ".." basenames and prompt again. | high; not executed | SshConfig.DirectoryNamesAccepted | SshConfig.ValidFilename |
| infraninja/utils/pubkeys.py:186-188 | `clear_cache` resets the class attributes only. The session, credentials and keys were written through `self.` (lines 65, 122, 147), so the instance still holds them. | A successful `_login`, then `clear_cache`, then `_login`: it returns True with no request, using the old session. | Clearing drops the cached session, credentials and keys on the instance too. | high; not executed | PubKeys.StaleSessionAfterClearCache | PubKeys.SSHKeyManager.ClearAllCaches |
