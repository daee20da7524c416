# NubeIO platform: instance registry and service helpers in Dafny

This project models the core of the NubeIO `platform` server, written in Go.

The main part is the **instance registry**. It keeps a map from instance name to record and supervises one
`./main -p=<port>` process per record. It exists twice:

- `InstanceManager` in `base.go`, modelled as `Manager.InstanceManager`.
- `Controller` in `controller/platform.go`, modelled as `Platform.Controller`. Its records also carry an
  address and an error note, its listing refreshes every record, and its gin handlers turn each outcome into
  a reply.

Both are classes with a `map<string, Instance>` field. The operations change that map in place. The
operating system is an oracle value (`Supervision.Os`): what `fuser -n tcp <port>` prints, whether
`./main` starts and with which pid, and whether `kill <pid>` and `kill -0 <pid>` succeed. `getPID` is
modelled in full: Go's `strings.TrimSpace` over Unicode white space, then `strconv.Atoi` with its sign,
digits and 64-bit range. A Go nil-pointer dereference is an outcome of its own (`Crashed`, or `Panics`
for a value-returning call). gin's recovery middleware turns such a panic into a 500 reply with no body.
Whatever the operation changed before the panic stays changed. A Go `range` over a map visits the keys
in an order the model leaves open (`Supervision.RangeOrder`).

Around the registry sit small services, each modelled on values:

- The JSON reply helper, `CheckHTTP` and `Builder` (`ControllerBase`).
- The OpenVPN status report (`OpenVpn`).
- The module store listing and upload file-name split (`ModuleStore`).
- The system information service (`SystemInfo`). Its `GetSubnet`, `GetNetmask` and `GetGateway` answer the
  fixed texts `SubnetAnswer`, `NetmaskAnswer` and `GatewayAnswer`.
- The restart-job handlers and the cron expression check (`Cron`).
- The app, service, repository and data-directory name mappings (`Constants`).
- `cleanCommand` (`InfoBase`).

Three shared modules support them:

- `GoText` gives the Go `strings` and `strconv` functions the code relies on.
- `NetAddr` gives the `net.IP` operations.
- `Results` gives `Option` and `Result`.

Two defects of the source are modelled as written and also in corrected form (see "## Findings"). The
create and delete handlers are modelled on the operations as written, as the source calls them, and once
more on the corrected operations (`CreateInstanceCorrected`, `DeleteInstanceHandlerCorrected`). The other
handlers pass the name from the query string unchecked, as the source does, so an unknown name answers
500.

## Model

| member | source | states |
|---|---|---|
| Supervision.GetPid | base.go:161-169 | a failed `fuser` gives pid 0 with its error; a pid is found only when the trimmed output is a sign or digit followed by digits and fits in 64 bits; a syntax error returns 0 |
| Supervision.GetPidReadsOnePid | base.go:161-169 | `fuser` printing one in-range integer with any white space around it is read back as exactly that pid |
| Supervision.TrimAroundItoa | base.go:167 | trimming white space around a printed integer leaves the integer's text |
| GoText.Quote | controller/platform.go:168 | the text `strconv.Atoi`'s error prints for the rejected input: double quotes around the escaped characters |
| GoText.UnescapeQuoteChar | controller/platform.go:168 | each character's escape reads back as that character, whatever follows it |
| GoText.UnescapeQuoteBody | controller/platform.go:168 | the escaped text inside the quotes reads back as the rejected input: nothing is lost by the quoting |
| GoText.QuotePlain | controller/platform.go:168 | text of printable ASCII without quote or backslash is quoted as it is |
| GoText.AtoiItoa | base.go:168 | `strconv.Atoi(strconv.Itoa(n)) == n` for every 64-bit `n`, the round trip `getPID` and the handlers rely on |
| Supervision.RangeUpdate | controller/platform.go:150-157 | a range over the map rewrites every record with the given function, keeps the key set, and lists each rewritten record exactly once in visiting order |
| Manager.InstanceManager.LoadFromFile | base.go:27-43 | a failed read leaves the map; otherwise the map is replaced by what the decoder produced, also when decoding then fails |
| Manager.InstanceManager.AddInstance | base.go:62-83 | a taken name fails first and a taken port second, both with the map unchanged; otherwise exactly one record, with the spawned pid or 0, is added; a failed spawn is reported with the record kept; distinct ports and names filed under themselves are preserved |
| Manager.InstanceManager.DeleteInstance | base.go:85-100 | an absent name fails with nothing changed; a present name is removed and the stop that follows always panics |
| Manager.InstanceManager.StartInstance | base.go:102-110 | an absent name panics before any spawn; a failed spawn changes nothing; a spawn records the child's pid on that record only |
| Manager.InstanceManager.StopInstance | base.go:112-126 | the pid killed is the one `fuser` reports for the port, never the stored one; no pid or a failed kill fails with nothing changed; a successful kill sets only that record's pid to 0 |
| Manager.InstanceManager.RestartInstance | base.go:128-134 | a failed stop is returned with nothing spawned and nothing changed; otherwise the record ends with the spawned pid, or 0 when the spawn fails |
| Manager.InstanceManager.GetInstanceStatus | base.go:136-148 | "PID not found" exactly when the port has no pid, "running" exactly when `kill -0` succeeds on it, "stopped" otherwise; an absent name panics |
| Manager.InstanceManager.GetAllInstances | base.go:150-159 | every record listed exactly once, in the map's iteration order |
| Platform.Refreshed | controller/platform.go:150-156 | the refreshed record keeps name, address and port, takes the pid `getPID` returns in every case (the found pid; 0 when `fuser` fails or its output is not a number; the clamped bound when it is out of range), and gets "instance isn't running" on a failed lookup; a success never clears that note |
| Platform.RefreshedIdempotent | controller/platform.go:150-156 | refreshing twice against the same answers is refreshing once |
| Platform.InstanceJson | controller/platform.go:19-25 | a record renders as an object with exactly the five Go field names, each holding its field |
| Platform.InstancesJson | controller/platform.go:246-248 | the listing renders one object per record, in order |
| Platform.OutcomeReply | controller/platform.go:193-221 | 200 with the success message exactly when the operation succeeded, 400 with the error text exactly when it failed, 500 with no body exactly when it panicked |
| Platform.Controller.LoadFromFile | controller/platform.go:27-43 | a failed read leaves the map; otherwise the map is replaced by the decoded one, also when decoding then fails |
| Platform.Controller.SaveToFile | controller/platform.go:45-60 | the whole map is what is written; the outcome is the write's, and the map does not change |
| Platform.Controller.AddInstance | controller/platform.go:62-83 | a taken name fails first and a taken port second, with the map unchanged; otherwise one record with empty address and note and the spawned pid, or 0 on a failed spawn, which keeps the record; port uniqueness and names filed under themselves are preserved |
| Platform.Controller.AddRollingBack | controller/platform.go:62-83 | corrected add: succeeds exactly when name and port are free and the spawn works, every failure leaves the map as it was, and it never panics |
| Platform.Controller.DeleteInstance | controller/platform.go:85-100 | an absent name fails with nothing changed; a present name is removed and the delete then always panics |
| Platform.Controller.DeleteStoppingFirst | controller/platform.go:85-100 | corrected delete: an absent name fails with nothing changed; it succeeds exactly when the name is present and nothing is left running on its port (no pid, or a successful kill), and then only that record is removed; a failed kill is reported with the record kept; it never panics and keeps the invariants |
| Platform.Controller.StartInstance | controller/platform.go:102-110 | an absent name panics; a failed spawn changes nothing; a spawn records the pid on that record only |
| Platform.Controller.StopInstance | controller/platform.go:112-126 | the port-resolved pid is killed; a missing pid or failed kill fails with nothing changed; only a successful kill sets that record's pid to 0 |
| Platform.Controller.RestartInstance | controller/platform.go:128-134 | a failed stop is returned with nothing spawned and nothing changed; otherwise the record ends with the spawned pid, or 0 when the spawn fails |
| Platform.Controller.GetInstanceStatus | controller/platform.go:136-143 | "PID not found" exactly when the port has no pid; otherwise "ruuning with PID: " followed by text that reads back as the pid; an absent name panics; nothing changes |
| Platform.Controller.GetAllInstances | controller/platform.go:145-159 | the key set is kept, every record becomes its refreshed form, and the listing holds each refreshed record exactly once |
| Platform.Controller.CreateInstance | controller/platform.go:171-191 | an undecodable body, a taken name or a taken port answers 400 with nothing changed and nothing saved; a failed spawn answers 400 with the spawn's error and the new record kept in memory with pid 0, unsaved; after a spawn the whole registry is saved, and a failed save answers 500 with the record kept; otherwise 200 "Instance created successfully" |
| Platform.Controller.CreateInstanceCorrected | controller/platform.go:171-191 | the create handler on the corrected add: a record is added and saved exactly when the name and port are free and the spawn works; every other body answers 400 with the registry as it was |
| Platform.Controller.AddedReply | controller/platform.go:178-190 | after the add: a failed add answers 400 with its error text and saves nothing; a successful one saves the registry and answers 500 on a failed write, otherwise 200 |
| Platform.Controller.StartInstanceHandler | controller/platform.go:193-201 | an unknown name answers 500 with no body; otherwise the start's reply and its effect on the record |
| Platform.Controller.StopInstanceHandler | controller/platform.go:203-211 | an unknown name answers 500; otherwise the stop's reply, with pid 0 only after a successful kill |
| Platform.Controller.RestartInstanceHandler | controller/platform.go:213-221 | an unknown name answers 500; a failed stop answers 400 with nothing spawned; otherwise the spawn decides the reply and the pid |
| Platform.Controller.DeleteInstanceHandler | controller/platform.go:223-238 | an unknown name answers 400 "instance with name ... not found" with nothing changed; a present name is removed from memory and answers 500 with no body (the delete panics); the registry is never saved |
| Platform.Controller.DeleteInstanceHandlerCorrected | controller/platform.go:223-238 | the delete handler on the corrected delete: when nothing is left running on the port the record is removed and the registry saved, answering 200 or 500 on a failed write; a failed kill answers 400 with the record kept and nothing saved |
| Platform.Controller.DeletedReply | controller/platform.go:225-237 | after the delete: a panic answers 500 with no body, a failure 400 with its error text, both without saving; a success saves the registry and answers 500 on a failed write, otherwise 200 |
| Platform.Controller.GetInstanceStatusHandler | controller/platform.go:240-244 | 200 exactly when the name is registered, with the status text as the only member "status": "PID not found" without a pid, otherwise "ruuning with PID: " followed by text that reads back as the pid; an unknown name answers 500 with no body |
| Platform.Controller.GetAllInstancesHandler | controller/platform.go:246-249 | 200 with an "instances" list holding each refreshed record once, and every record refreshed |
| Platform.Controller.GetPIDByPortHandler | controller/platform.go:261-274 | a port that does not parse answers 500 "unable get port"; a port without a pid answers 500 with the `getPID` error, whose `strconv.Atoi` text quotes the trimmed output with `strconv.Quote`; 200 with the pid exactly when both succeed |
| Platform.Controller.ProxyHandler | controller/platform.go:276-284 | an unregistered name answers 404 "Instance not found"; a registered one is forwarded to "<ip>:" followed by text that reads back as its port |
| Platform.DeleteAfterAdd | controller/platform.go:94-95 | after adding "svcA" with a working spawn and stop, the delete as written panics while the corrected delete succeeds |
| Platform.DeleteIdleInstance | controller/platform.go:223-238 | deleting an added "svcA" once no process holds its port: the handler as written answers 500 and saves nothing, the corrected one answers 200 and saves the empty registry |
| Platform.RetryAfterFailedSpawn | controller/platform.go:77-81 | after a failed spawn, retrying the same name is refused as written and succeeds with the roll-back |
| Platform.ProxyAfterAdd | controller/platform.go:276-284 | after one add, an unknown name gets 404 and the added one is forwarded to its port |
| ControllerBase.ResponseHandler | controller/base.go:34-57 | an explicit status always wins; otherwise an error gives 400, a POST 201 and other methods 200; an error body is exactly {"message": "platform: " + error}; without error the body is sent unchanged |
| ControllerBase.CheckHttp | controller/base.go:63-68 | the result always has an http or https scheme; an address with one is kept, any other gets "http://" in front |
| ControllerBase.CheckHttpIdempotent | controller/base.go:63-68 | normalising twice is normalising once |
| ControllerBase.BuilderAddress | controller/base.go:59-61 | "<ip>:<port>" gains "http://" exactly when the host has no scheme |
| ControllerBase.SchemeOfHostPort | controller/base.go:59-61 | the colon and port digits can never complete a scheme, so the text has one exactly when the host does |
| ControllerBase.RosProxyAddress | controller/rubixosproxy.go:9-10 | the Rubix OS proxy target is "http://0.0.0.0:1660" |
| OpenVpn.OpenVpnStatus | services/info/openvpn.go:30-86 | a failed `systemctl` call is passed on; otherwise each flag is set exactly when its phrase occurs, the messages are the phrases found in the fixed order, one per set flag, and `ip` is the placeholder exactly when `tun0` has no usable address and otherwise the text of its last usable address |
| OpenVpn.Classify | services/info/openvpn.go:35-66 | the six flags say exactly which phrases occur, and the messages are those phrases in order, as many as flags are set |
| OpenVpn.Check | services/info/openvpn.go:43-46 | one check: the flag is whether the phrase occurs, and the phrase list grows by it exactly then |
| OpenVpn.FoundMembers | services/info/openvpn.go:43-66 | the messages are exactly the phrases that occur, never more than there are phrases |
| OpenVpn.FoundCount | services/info/openvpn.go:43-66 | the number of messages equals the number of flags set |
| OpenVpn.ActiveAndDeadTogether | services/info/openvpn.go:43-50 | the flags are independent: one status text can set both "active" and "dead" |
| OpenVpn.TunnelAddress | services/info/openvpn.go:68-72 | the placeholder exactly when `tun0` has no usable address, otherwise the text of the last usable address in list order, as `getInternalIP` keeps overwriting it |
| OpenVpn.PlaceholderIsNoAddress | services/info/openvpn.go:68-72 | no address text is the placeholder, so the two answers cannot be confused |
| OpenVpn.GetInternalIp | services/info/openvpn.go:88-107 | "" exactly when no address is a non-loopback IPv4 one, otherwise the last such address in list order |
| NetAddr.To4 | services/system/system.go:66 | a 4-byte address is IPv4 as it is; a 16-byte one is IPv4 exactly when it has the IPv4-mapped prefix, and then its last four bytes |
| NetAddr.DottedQuadFields | services/system/system.go:67 | an IPv4 address text splits at its dots into the decimal texts of its four bytes |
| ModuleStore.FindArch | appstore/modulestore.go:82-87 | "armv7" exactly when the file name contains "armv7", otherwise "amd64" |
| ModuleStore.ModuleOf | appstore/modulestore.go:35-40 | name, version and architecture come from the third-last, second-last and last path parts |
| ModuleStore.VisitPath | appstore/modulestore.go:32-41 | a path yields a module exactly when it has more than three parts and its second-last part is a version, and then the module of its last three parts |
| ModuleStore.GetModulesStoreModules | appstore/modulestore.go:17-45 | a failed walk is passed on; otherwise a list, never nil, with exactly one module per qualifying path, in walk order |
| ModuleStore.ParseModuleFileName | appstore/modulestore.go:58-64 | refused with the source's message exactly when the name does not split into four "___" parts; otherwise parts 0, 1 and 3 give name, version and file |
| ModuleStore.ParseBuiltFileName | appstore/modulestore.go:58-64 | a name built from four parts with no separator starting inside the first three reads back as name, version and file |
| ModuleStore.TrailingUnderscoreName | appstore/modulestore.go:58 | a module name ending in '_' loses it to the version, so the side condition of the round trip is needed |
| SystemInfo.ExecuteMethods | services/system/system.go:43-56 | fails exactly when some name is neither "ip" nor "uptime", naming the first such one with no partial result; otherwise the keys are exactly the names asked for, holding the two answers |
| SystemInfo.GetIP | services/system/system.go:58-72 | "Error getting IP" when listing fails; "No IP found" exactly when no address is a non-loopback IPv4 one; otherwise the first such address |
| SystemInfo.AddressIsNotAFixedAnswer | services/system/system.go:58-72 | no address text is one of the two fixed answers |
| SystemInfo.RemoveNewLines | services/system/system.go:231-233 | no '\n' is left and every other character keeps its count |
| SystemInfo.RemoveNewLinesIdempotent | services/system/system.go:231-233 | removing new lines twice is removing them once |
| SystemInfo.RemoveNewLinesJoins | services/system/system.go:231-233 | the lines around a new line are joined in order |
| SystemInfo.RemoveNewLinesOneLine | services/system/system.go:231-233 | a text without new lines is kept as it is |
| SystemInfo.GetUptime | services/system/system.go:74-80 | the printed uptime with its new lines removed and every other character kept in order (`RemoveNewLines`, whose joining and counting lemmas are proved), or "Error getting uptime: " followed by the error |
| SystemInfo.Entry | services/system/system.go:165-172 | the entry keeps pid and name, and its memory is the resident size rounded down to whole mebibytes |
| SystemInfo.DivideTwice | services/system/system.go:171 | dividing by 1024 twice rounds down to whole mebibytes |
| SystemInfo.GetTopProcessesByMemory | services/system/system.go:153-187 | a failed listing is passed on; a negative count panics; otherwise min(count, n) entries, heaviest first, a prefix of a sorted permutation of all entries, and no left-out process is heavier than one returned |
| SystemInfo.SortByMemory | services/system/system.go:176-179 | the entries end heaviest first and are a permutation of the entries before |
| Cron.ValidateCronExpression | controller/cron.go:56-66 | accepted exactly when there are five white-space separated fields and the cron parser accepts; both refusals say "invalid expression" |
| Cron.SpacingKeepsFieldCount | controller/cron.go:57 | leading, trailing and doubled white space never change the field count |
| Cron.GetRestartJob | controller/cron.go:13-20 | always 200 with a list, empty and never null when there are no jobs, otherwise one item per job |
| Cron.UpdateRestartJob | controller/cron.go:22-39 | a job reaches the table exactly when the body decodes and its expression is accepted; 200 with the job exactly when the put also succeeds, 400 otherwise |
| Cron.DeleteRestartJob | controller/cron.go:41-49 | a failed delete answers the error; otherwise 200 with "deleted <unit> restart job successfully" |
| Constants.GetServiceNameFromAppName | constants/constants.go:17-22 | the table's entry, or a name from which "nubeio-" and ".service" strip back to the app |
| Constants.ServiceNameInjective | constants/constants.go:17-22 | two unmapped apps never share a service name |
| Constants.GetRepoNameFromAppName | constants/constants.go:33-38 | the table's entry, or the app name unchanged |
| Constants.GetDataDirNameFromAppName | constants/constants.go:40-45 | the table's entry, or the app name unchanged |
| Constants.GetAppNameFromRepoName | constants/constants.go:24-31 | some app the table maps to the repository when there is one, otherwise the repository name |
| Constants.RepoRoundTrip | constants/constants.go:24-38 | with no two apps sharing a repository, the reverse lookup of an app's repository gives the app back |
| Constants.UnmappedAppMovesOn | constants/constants.go:24-38 | without that condition the round trip fails: an unmapped app can come back as another one |
| Constants.ShippedMappings | constants/constants.go:11-45 | with the tables as shipped, every mapping keeps the app name, and the service name is "nubeio-<app>.service" |
| InfoBase.CleanCommand | services/info/base.go:38-52 | the result never ends in '\n', is a prefix of the input, and only new lines were cut after it |
| InfoBase.CleanCommandIdempotent | services/info/base.go:39 | cleaning twice is cleaning once |
| InfoBase.CleanCommandKeepsLastLine | services/info/base.go:39 | output not ending in a new line comes back unchanged |
| InfoBase.CleanCommandTrailing | services/info/base.go:39 | a text followed by any number of new lines cleans back to that text, inner new lines included |
| InfoBase.CleanCommandIgnoresLogging | services/info/base.go:40-51 | the command, its error and the debug flags never change the result |

## Left out

- YAML encoding and decoding, and the file reads and writes of `LoadFromFile`, `SaveToFile` and `ReadYAMLFile`: the outcome of a read or write is an input, and the decoded map is given.
- Running `fuser`, `kill`, `kill -0`, `./main`, `systemctl`, `uptime` and the process and interface listings: their answers are inputs. A repeated command is assumed to answer the same within one operation.
- `sync.Mutex` locking: operations are modelled one at a time.
- Reverse-proxy streaming in `ProxyHandler` and `ROSProxy`: only the lookup and the target text are modelled. The URL parse that `Builder` hands its text to is not modelled.
- HTTP routing, middleware and request binding: the query name, header and decoded body are inputs. The route `/hosts/:name` (router/router.go:253) never fills the `name` query the handlers read; this is not modelled. Nor is a JSON body of `null` to `UpdateRestartJob`, which leaves the bound `*dto.RestartJob` nil so that reading its `Expression` panics: a decoded body is always a job.
- Floating point: CPU percentages, `GetTopProcessesByCPUUsage`, `prettyByteSize` and `mbToGB`. The `CPUPercentage`, `CPUString` and `Memory` fields of `topProcess` are not modelled.
- `getPublicIP`, `GetInternetIP`, the system time and the memory and disk texts of the system service: network and library calls.
- Auth, users, tokens, file and plugin stores, zip, networking, DHCP and time wrappers: thin calls into libraries that are not part of this model.
- The `crontab` package, `dto.RestartJob` and the cron parser are not part of this model: the table's answers are inputs and the parser is a predicate.
- The file moves of `UploadModuleStoreModule` after the name split, and the `nversion` version check, which is a predicate.
- The `*Instance` pointers of the Go maps: records are values, so the aliasing between a listed record and the map entry is not modelled. Nor is a nil record, which a hand-edited YAML entry of `null` decodes to and whose later dereference panics in Go: every decoded record is a value.
- The walk errors raised inside the `WalkDir` callback: a walk either lists every path or fails.
- A nil `MemoryInfo` from gopsutil: every process is assumed to report its resident size.
- Go's nil slices: an empty result is an empty sequence. Only `GetRestartJob` and `GetModulesStoreModules`, where the source makes the difference visible, model it.
- SystemInfo.ExecuteMethods: takes the answers of `GetIP()` and `GetUptime()` as values, so every request of the same name within one call gets the same answer.
- Platform.Controller.GetPIDByPortHandler: the error text of a failed `fuser` is the reason given as input, not `exec`'s exact wording.
- GoText.Quote: escapes the ASCII characters exactly as `strconv.Quote` does, but writes every non-ASCII character as it is. Go escapes the non-printable ones as `\u`/`\U` and invalid UTF-8 bytes as `\x`; Unicode's printable table and byte-level UTF-8 are not modelled.

## Findings

| source | as written | input that shows it | evidently intended | confidence | as-written member | corrected member |
|---|---|---|---|---|---|---|
| controller/platform.go:94-95 | `DeleteInstance` removes the record, then `StopInstance` looks it up again and dereferences nil (same in base.go:94-95) | add "svcA" on port 9001 with a working spawn, then delete "svcA": the delete panics, the record is gone and the process keeps running | stop the process while the record exists (a port with no process counts as stopped), then remove the record and save | high; not executed | Platform.DeleteAfterAdd | Platform.Controller.DeleteStoppingFirst |
| controller/platform.go:77-81 | a failed spawn in `AddInstance` returns the error but leaves the new record, with pid 0 (same in base.go:77-81) | add "svcA" on port 9001 while `./main` cannot start, then add it again once it can: the retry is refused as "already exists" | take the record out again when the spawn fails | medium; not executed | Platform.RetryAfterFailedSpawn | Platform.Controller.AddRollingBack |
