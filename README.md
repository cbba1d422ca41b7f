# RouterControl core, modelled in Dafny

RouterControl is a Windows tray application that switches a MikroTik router's Internet
connection on and off. It does this by enabling or disabling two router interfaces: a PPPoE
interface and an Ethernet interface. It also:

- reports whether the connection is active;
- polls the router's tables and pushes per-interface records to subscribers;
- watches Internet reachability by pinging 8.8.8.8;
- asks an external web service for the public IP address;
- keeps its settings in a key/value store and edits them through a form model.

This project models the core of that program in Dafny and proves what each part promises.

- **Settings and their check** (`Settings`, `SettingsCheck`).
  - The settings are a user name, an encrypted password, the router end point and the two interface names.
  - The check accepts settings only when all six fields are usable. When it fails, it lists every bad field, one line each, in the order it checks them.
- **Router sessions** (`Api`, `Executor`).
  - A session checks the settings and creates the connection. It then connects, decrypts the password and authenticates. Next it runs one action, logs out, and always disposes a connection it created.
  - A session is modelled as the trace of its visible events (calls into the router, progress reports, notification batches) together with its result.
  - The router, the password decryption and the clock are parameters: an oracle answers each call.
- **The actions** (`Actions`).
  - Switching the two interfaces, PPPoE first.
  - Reading whether both interfaces are enabled.
  - The polling loop that reads the tables until cancellation.
  - A single read of the interface list.
- **The correlation** (`Correlator`).
  - The Bridge/Hosts table becomes an interface→MAC map, and the DHCP lease table becomes a MAC→lease map.
  - Each interface then becomes one record; PPPoE interfaces get the address from their `/ip/address` entry.
  - Every table failure is wrapped with the table's name.
- **Notifications** (`StateNotifier`, `ConnectionMonitor`).
  - A registry holds one subscriber per interface name. The polling loop's records are routed to it.
  - The ping loop raises a connection state only when it changes.
  - The public-address request has its own error cases.
- **The two top-level operations** (`ControlService`): switch the connection, and read its state.
- **Settings persistence and editing** (`SettingsService`, `SettingsForm`, `SettingsTracker`).
  - The settings item saves six properties in order and stops at the first write that throws.
  - It loads them back with type-checked reads.
  - The form model fills its text fields from settings, checks them, and converts them back.
  - The change tracker dispatches a change to the one listener registered under its name.
- **Support** (`Errors`, `Text`, `Wrappers`).
  - Exceptions and their inner-exception chain, including the error text built from that chain.
  - The .NET string and number operations the code relies on: `IsNullOrWhiteSpace`, `Split`, `Int32.ToString` and `Int32.TryParse`.

The program's exceptions are values: a `Kind` (the .NET exception type), a message, and an
optional inner exception. A `Result` is either a value or a thrown exception.

Imperative code is modelled with methods and loops:

- the check's field-by-field accumulation;
- filling the host and lease dictionaries row by row;
- the walk over the interface list;
- the polling and ping loops;
- the observer registry and the settings tracker, as classes over `map` fields;
- the settings item and the form model, as classes whose fields the methods update.

Each such method is proved equal to a specification function. The lemmas then state the promises about that function.

The session code appears twice in the source: once in `Infrastructure/RouterActionExecutor.cs`, and
once nested in `Services/RouterControlService.cs`. The two copies differ only in how a catch block
words the exception it rethrows. The `Wording` parameter (`Plain` / `WithCause`) covers both copies.

## Model

| member | source | states |
|---|---|---|
| Errors.Rethrow | RouterControl/Services/RouterControlService.cs:217-220 | a rethrown exception is an InvalidOperationException whose inner exception is the cause, in both wordings; its message starts with the catch block's text, which is the whole message in the plain wording and is followed by "\r\nОшибка: " and the cause's message in the wording with the cause |
| Errors.Lines | RouterControl/Infrastructure/Extensions/ExceptionExtension.cs:10-28 | the error text has exactly one line per exception of the inner chain |
| Errors.TextIsOneLinePerException | RouterControl/Infrastructure/Extensions/ExceptionExtension.cs:10-28 | the error text is the lines of the chain joined, outermost first, and line k belongs to the exception k steps down the chain |
| Errors.CreateErrorText | RouterControl/Infrastructure/Extensions/ExceptionExtension.cs:10-28 | a null exception throws ArgumentNullException; otherwise the loop over the inner chain yields the chain's text |
| Text.SplitKeepsText | RouterControl/Services/RouterStateNotifierService.cs:250 | splitting with empty entries removed loses only the separators: the parts, joined, are the text without its separators |
| Text.FirstPart | RouterControl/Services/RouterStateNotifierService.cs:250-255 | for a text not starting with the separator, the first part is everything before the first separator |
| Text.TryParseInt32 | RouterControl/Models/SettingsModel.cs:94 | a text parses only if it has the integer form, and the value is then the number the text denotes, within the 32-bit range |
| Text.PrintedIntParses | RouterControl/Models/SettingsModel.cs:65 | a port printed with ToString parses back to the same number |
| SettingsCheck.CheckIpAddress | RouterControl/Infrastructure/RouterActionExecutor.cs:161-171 | a router address is usable iff it is IPv4 and none of 0.0.0.0, 127.0.0.1 and 255.255.255.255 |
| SettingsCheck.WrongFieldsAreTheFailingOnes | RouterControl/Infrastructure/RouterActionExecutor.cs:139-158 | the listing holds every failing field and only failing fields, each once |
| SettingsCheck.RanksIncrease | RouterControl/Infrastructure/RouterActionExecutor.cs:139-158 | failing fields are listed in checking order |
| SettingsCheck.ValidMeansEveryFieldPasses | RouterControl/Infrastructure/RouterActionExecutor.cs:139-158 | settings are valid iff the name is not blank, the password is not empty, the address passes, the port is above 0 and both interface names are not blank |
| SettingsCheck.OneLinePerWrongField | RouterControl/Infrastructure/RouterActionExecutor.cs:173-177 | the text gathered is one line per failing field, each the field's name |
| SettingsCheck.CheckField | RouterControl/Infrastructure/RouterActionExecutor.cs:173-177 | one field check appends the field's line and clears the result exactly when the field fails |
| SettingsCheck.CheckSettings | RouterControl/Infrastructure/RouterActionExecutor.cs:134-178 | the result is false iff some field fails; a passed builder receives one line per failing field, in order |
| SettingsCheck.ThrowIfWrongSettings | RouterControl/Infrastructure/RouterActionExecutor.cs:180-186 | throws iff the settings are not valid, and then throws the header followed by the listing of the bad fields |
| Api.Progress | RouterControl/Infrastructure/RouterActionExecutor.cs:70 | a report is one message when there is a progress sink and nothing without one |
| Actions.ExecuteCommand | RouterControl/Services/RouterControlService.cs:62-87 | sending a command follows the command's specification function: one call, one report, success only on `!done` |
| Actions.CommandReportsOnce | RouterControl/Infrastructure/RouterActionBase.cs:14-39 | a command is exactly one call and, with a sink, one report; it completes iff the answer is `!done`; a failed call is rethrown around its cause |
| Actions.ChangeInterfacesState | RouterControl/Services/RouterControlService.cs:106-129 | the switch action follows its specification function |
| Actions.ProgressIsReportOnly | RouterControl/Services/RouterControlService.cs:101-104 | a progress report adds no call and at most its own message |
| Actions.SwitchOrder | RouterControl/Services/RouterControlService.cs:106-129 | `disabled=false` enables and `disabled=true` disables; the PPPoE interface is switched first, and the Ethernet one only after the first command completed |
| Actions.SwitchCompletes | RouterControl/Services/RouterControlService.cs:106-129 | the switch completes iff both commands are answered with `!done` |
| Actions.SwitchMessages | RouterControl/Services/RouterControlService.cs:101-129 | each command is announced by a report naming its interface, before the command's own report |
| Actions.RequestInterfacesStatus | RouterControl/Services/RouterControlService.cs:142-166 | the status action follows its specification function |
| Actions.StatusMeaning | RouterControl/Services/RouterControlService.cs:142-166 | the interfaces are active iff the answer has two rows and both say not disabled; a malformed answer throws |
| Actions.NotifierLoop | RouterControl/Services/RouterStateNotifierService.cs:445-467 | the polling loop follows its specification function |
| Actions.NotifierCompletes | RouterControl/Services/RouterStateNotifierService.cs:445-467 | the loop ends normally iff every read before cancellation succeeds |
| Actions.NotifierUpdates | RouterControl/Services/RouterStateNotifierService.cs:445-467 | a loop that ended normally raised one update per iteration, carrying that iteration's records, in order |
| Actions.NoBatches | RouterControl/Services/RouterStateNotifierService.cs:149-296 | a trace without updates raises no batch |
| Actions.QueriesOnly | RouterControl/Services/RouterStateNotifierService.cs:149-296 | the correlation makes queries only and raises no update of its own |
| Actions.CorrelationQueries | RouterControl/Services/RouterStateNotifierService.cs:149-296 | every event of the correlation is a query |
| Actions.WalkQueries | RouterControl/Services/RouterStateNotifierService.cs:200-293 | every event of the interface walk is a query |
| Actions.CancelledAtOnce | RouterControl/Services/RouterStateNotifierService.cs:449-461 | cancellation requested before the first check ends the loop at once without a read |
| Actions.ExecuteRouterAction | RouterControl/Interfaces/IRouterAction.cs:10 | running an action follows its specification function |
| Actions.NotifierEvents | RouterControl/Services/RouterStateNotifierService.cs:445-467 | the polling loop only queries and raises updates |
| Actions.ActionEvents | RouterControl/Interfaces/IRouterAction.cs:10 | an action never creates, connects, authenticates, quits or disposes: it only reports, executes, queries and raises updates |
| Correlator.CheckProperty | RouterControl/Services/RouterStateNotifierService.cs:385-396 | a property passes iff it is not null or white space; a missing one yields the missing-property error |
| Correlator.HostCheck | RouterControl/Services/RouterStateNotifierService.cs:398-404 | a host row passes iff both properties are present, and the interface is checked first |
| Correlator.LeaseCheck | RouterControl/Services/RouterStateNotifierService.cs:406-413 | a lease row passes iff all three properties are present, and the MAC address is checked first |
| Correlator.InterfaceCheck | RouterControl/Services/RouterStateNotifierService.cs:415-422 | an interface row passes iff its name and type are present and its disabled flag is not null |
| Correlator.HostsAccepted | RouterControl/Services/RouterStateNotifierService.cs:151-174 | the host rows are accepted iff every row passes and no interface repeats or is already a key |
| Correlator.HostsMapped | RouterControl/Services/RouterStateNotifierService.cs:151-174 | accepted host rows all land in the map: each interface maps to the MAC address on its row, and nothing else is added |
| Correlator.LeasesAccepted | RouterControl/Services/RouterStateNotifierService.cs:176-198 | the lease rows are accepted iff every row passes, no MAC address is a key of the host map or already a lease, and none repeats |
| Correlator.LeasesMapped | RouterControl/Services/RouterStateNotifierService.cs:176-198 | accepted lease rows all land in the map: each MAC address maps to the address and host name on its row |
| Correlator.InterfaceRecord | RouterControl/Services/RouterStateNotifierService.cs:200-293 | a record carries the row's name and the negation of its disabled flag; only an enabled PPPoE interface queries anything, and only its addresses |
| Correlator.FillHosts | RouterControl/Services/RouterStateNotifierService.cs:151-174 | filling the host dictionary row by row gives the host table's map or its first failure |
| Correlator.FillLeases | RouterControl/Services/RouterStateNotifierService.cs:176-198 | filling the lease dictionary row by row gives the lease table's map or its first failure |
| Correlator.WalkInterfaces | RouterControl/Services/RouterStateNotifierService.cs:200-293 | the walk appends one record per interface row or stops at the first failure |
| Correlator.GetInterfacesInfo | RouterControl/Services/RouterStateNotifierService.cs:149-296 | the three blocks in order follow the correlation's specification function |
| Correlator.DuplicateHostStops | RouterControl/Services/RouterStateNotifierService.cs:151-174 | two host rows naming the same interface end the correlation at Bridge/Hosts, and no other table is read |
| Correlator.LeaseRejectionStops | RouterControl/Services/RouterStateNotifierService.cs:176-198 | a lease whose MAC address is a host map key, or a MAC address on two lease rows, ends the correlation at the lease table |
| Correlator.RecordsShape | RouterControl/Services/RouterStateNotifierService.cs:200-293 | the walk's records are those before it, then one per row, each the record of its row |
| Correlator.OneRecordPerInterface | RouterControl/Services/RouterStateNotifierService.cs:149-296 | a successful correlation has exactly one record per interface row, in list order, with the row's name and enabled state |
| Correlator.JoinedRecord | RouterControl/Services/RouterStateNotifierService.cs:275-287 | a non-PPPoE interface with a host row whose MAC address has a lease gets the MAC address, host name and address |
| Correlator.HostOnlyRecord | RouterControl/Services/RouterStateNotifierService.cs:275-287 | a host row whose MAC address has no lease gives a record with the MAC address only |
| Correlator.NoHostRecord | RouterControl/Services/RouterStateNotifierService.cs:275-280 | an interface with no host row gives a record with no client |
| Correlator.PppoeBranches | RouterControl/Services/RouterStateNotifierService.cs:218-273 | a disabled PPPoE interface gets a bare record without a query; an enabled one with no address gets a bare record, and more than one address throws |
| Correlator.PppoeSingleAddress | RouterControl/Services/RouterStateNotifierService.cs:243-262 | a single PPPoE address that is blank fails the address check; one that does not split on '/' into exactly two non-empty parts is a format error; both are wrapped with the interface's name. Otherwise the record's address is the first part, which is the text before the first '/' when the address does not start with one |
| Executor.CanExecuteAction | RouterControl/Infrastructure/RouterActionExecutor.cs:23 | an action may run iff the settings pass the check |
| Executor.GetPassword | RouterControl/Infrastructure/RouterActionExecutor.cs:38-48 | the decrypted password, or the decryption failure wrapped once |
| Executor.AuthenticateAndRun | RouterControl/Infrastructure/RouterActionExecutor.cs:86-120 | the stages after connecting follow their specification function |
| Executor.ExecuteAction | RouterControl/Infrastructure/RouterActionExecutor.cs:50-128 | the session method follows the session's specification function |
| Executor.InvalidSettingsOpenNothing | RouterControl/Infrastructure/RouterActionExecutor.cs:52 | settings that fail the check end the session with their error, before anything is created |
| Executor.CompletesIffAllStagesSucceed | RouterControl/Infrastructure/RouterActionExecutor.cs:50-128 | a session completes iff every stage succeeds, and it then yields the action's value |
| Executor.AuthenticatedOrder | RouterControl/Infrastructure/RouterActionExecutor.cs:86-120 | once authenticated, an action that completes is followed by the logout whether or not quitting fails: the calls are authenticate, the action's calls, quit; the messages are Authenticating, AuthenticationDone, the action's own, LoggingOut, then LoggedOut or LogoutFailed |
| Executor.ConnectedSession | RouterControl/Infrastructure/RouterActionExecutor.cs:56-127 | an open connection's session is the connecting part, the later stages, then the disposal |
| Executor.CompletedSessionOrder | RouterControl/Services/RouterControlService.cs:203-281 | a completed session calls create, connect, authenticate, the action's calls, quit and dispose, in this order; with a sink it reports the six stage messages around the action's own |
| Executor.CreationFailure | RouterControl/Infrastructure/RouterActionExecutor.cs:56-67 | a connection that cannot be created is not disposed, and the factory's exception is the cause |
| Executor.ConnectionFailure | RouterControl/Infrastructure/RouterActionExecutor.cs:72-81 | a connection that cannot be opened is disposed, nothing else is called, and the router's exception is the cause |
| Executor.PasswordFailure | RouterControl/Infrastructure/RouterActionExecutor.cs:38-48 | an undecryptable password fails authentication before the router is asked, wrapped twice |
| Executor.AuthenticationFailure | RouterControl/Infrastructure/RouterActionExecutor.cs:88-99 | a rejected authentication is disposed without running the action, and the router's exception is the cause |
| Executor.ActionFailure | RouterControl/Infrastructure/RouterActionExecutor.cs:103-104 | an action that throws ends the session with its own exception, unwrapped; no logout, but the connection is disposed |
| Executor.LogoutFailure | RouterControl/Infrastructure/RouterActionExecutor.cs:106-118 | a failed logout is reported as the logout stage's failure, after the action completed |
| Executor.AuthenticatedEvents | RouterControl/Infrastructure/RouterActionExecutor.cs:86-120 | the later stages add only reports, the authentication call, the action's events and the logout |
| Executor.DisposedOnceIffCreated | RouterControl/Infrastructure/RouterActionExecutor.cs:122-126 | a created connection is disposed exactly once, as the last event; a connection never created is never disposed |
| Executor.SilentSession | RouterControl/Infrastructure/RouterActionExecutor.cs:50-128 | without a progress sink a session reports nothing the action does not report itself |
| Executor.SessionBatches | RouterControl/Infrastructure/RouterActionExecutor.cs:50-128 | the session's own steps raise no update: its batches are the action's |
| ControlService.ChangeConnectionStateAsync | RouterControl/Services/RouterControlService.cs:32-39 | switching follows its specification function |
| ControlService.GetConnectionStateAsync | RouterControl/Services/RouterControlService.cs:41-51 | reading the state follows its specification function |
| ControlService.ChangeNeedsProgress | RouterControl/Services/RouterControlService.cs:34 | switching without a progress sink is refused before any session starts |
| ControlService.ChangeCompletesIff | RouterControl/Services/RouterControlService.cs:32-39 | the switch completes iff every session stage succeeds and both commands are answered with `!done` |
| ControlService.ChangeOrder | RouterControl/Services/RouterControlService.cs:32-39 | a completed switch calls the session stages around the two interface commands, PPPoE first |
| ControlService.InvalidSettingsReadInactive | RouterControl/Services/RouterControlService.cs:45-46 | settings that fail the check read as inactive without opening a session |
| ControlService.ConnectionActiveIff | RouterControl/Services/RouterControlService.cs:41-51 | the state reads active iff the session succeeds and the router says both interfaces are enabled |
| ControlService.ConnectionStateCalls | RouterControl/Services/RouterControlService.cs:41-51 | a state read that gets its answer calls exactly the session stages around the one status query |
| StateNotifier.ObserversManager.constructor | RouterControl/Services/RouterStateNotifierService.cs:93-97 | a new registry is empty |
| StateNotifier.ObserversManager.Add | RouterControl/Services/RouterStateNotifierService.cs:99-113 | a rejected subscription leaves the registry unchanged; an accepted one adds its entry and returns a handle bound to the name |
| StateNotifier.ObserversManager.TryGetObserver | RouterControl/Services/RouterStateNotifierService.cs:115-118 | finds a subscriber iff one is registered under the name, and returns that one |
| StateNotifier.ObserversManager.UpdatingData | RouterControl/Services/RouterStateNotifierService.cs:34-41 | the loop delivers each record to its interface's subscriber, in the records' order |
| StateNotifier.Unsubscriber.Dispose | RouterControl/Services/RouterStateNotifierService.cs:135-141 | the subscription under the handle's name goes, and every other one stays |
| StateNotifier.AddMeaning | RouterControl/Services/RouterStateNotifierService.cs:99-113 | Add accepts exactly a present observer under a new non-empty name, adding that one entry; otherwise the first guard's exception |
| StateNotifier.AddThenDispose | RouterControl/Services/RouterStateNotifierService.cs:99-141 | disposing the handle of an accepted subscription gives back the registry as it was |
| StateNotifier.RoutedToSubscriber | RouterControl/Services/RouterStateNotifierService.cs:34-41 | every delivery goes to the subscriber of its record's interface, with a record from the batch |
| StateNotifier.RoutedOncePerSubscribedRecord | RouterControl/Services/RouterStateNotifierService.cs:34-41 | each record with a subscriber is delivered exactly once, and the others not at all |
| StateNotifier.SubscribedThenDisposed | RouterControl/Services/RouterStateNotifierService.cs:34-46 | a record reaches the observer just subscribed for its name, and nobody once that handle is disposed |
| StateNotifier.RouterStateNotifierService.Subscribe | RouterControl/Services/RouterStateNotifierService.cs:43-46 | subscribing is the registry's Add |
| StateNotifier.RouterStateNotifierService.StartNotificationsAsync | RouterControl/Services/RouterStateNotifierService.cs:48-67 | the notifications follow their specification function: the session, then each batch routed, then the wrapper around a failure |
| StateNotifier.RouterStateNotifierService.GetInterfacesInfoAsync | RouterControl/Services/RouterStateNotifierService.cs:69-84 | reading the interface list follows its specification function |
| StateNotifier.NotificationFailureWrapped | RouterControl/Services/RouterStateNotifierService.cs:55-62 | whatever stage fails, the notifications end with the fixed wrapper around the session's exception |
| StateNotifier.InvalidSettingsNotifyNothing | RouterControl/Services/RouterStateNotifierService.cs:48-67 | settings that fail the check deliver nothing and end wrapped around the settings error |
| StateNotifier.NotificationsDeliverReads | RouterControl/Services/RouterStateNotifierService.cs:48-67 | when every read before cancellation succeeds, the subscribers receive exactly the routed records of each read, in order |
| StateNotifier.InterfacesInfoMeaning | RouterControl/Services/RouterStateNotifierService.cs:69-84 | the records come back iff the session succeeds, and they are those of the correlation of the first read |
| ConnectionMonitor.ConnectionStateNotifierService.constructor | RouterControl/Services/ConnectionStateNotifierService.cs:18-23 | a new monitor holds no state |
| ConnectionMonitor.ConnectionStateNotifierService.Observe | RouterControl/Services/ConnectionStateNotifierService.cs:59-79 | a poll raises the observed state iff it is the first or differs from the stored one, then stores it |
| ConnectionMonitor.ConnectionStateNotifierService.StartNotificationsAsync | RouterControl/Services/ConnectionStateNotifierService.cs:30-81 | the loop's raised states, final state and ending follow its specification function |
| ConnectionMonitor.CancelledLoopStops | RouterControl/Services/ConnectionStateNotifierService.cs:36-46 | cancellation before a poll ends the loop normally, without a poll or a change |
| ConnectionMonitor.PingFailureKeepsState | RouterControl/Services/ConnectionStateNotifierService.cs:50-57 | a failing ping ends the loop with the wrapped exception and keeps the stored state |
| ConnectionMonitor.FirstPollRaises | RouterControl/Services/ConnectionStateNotifierService.cs:59-62 | the first successful poll of a fresh monitor always raises the observed state |
| ConnectionMonitor.RaisedStatesAlternate | RouterControl/Services/ConnectionStateNotifierService.cs:59-79 | consecutive raised states differ, and the first differs from the stored state |
| ConnectionMonitor.SteadyStateIsSilent | RouterControl/Services/ConnectionStateNotifierService.cs:59-79 | polls that agree with the stored state raise nothing |
| ConnectionMonitor.RemoteAddressMeaning | RouterControl/Services/ConnectionStateNotifierService.cs:83-107 | the answer is returned iff it is a non-blank text that parses as an address; cancellation passes through unchanged; any other failure is one wrapper around its cause |
| SettingsTracker.SettingsEventTracker.constructor | RouterControl/Infrastructure/Trackers/SettingsEventTracker.cs:15-23 | a new tracker has no listeners and is attached to the service's change event |
| SettingsTracker.SettingsEventTracker.Register | RouterControl/Infrastructure/Trackers/SettingsEventTracker.cs:38-45 | a rejected registration leaves the listeners unchanged; an accepted one adds its entry |
| SettingsTracker.SettingsEventTracker.SettingsServiceChanged | RouterControl/Infrastructure/Trackers/SettingsEventTracker.cs:25-36 | a malformed change throws without a notice; a well-formed one yields the dispatch |
| SettingsTracker.SettingsEventTracker.Dispose | RouterControl/Infrastructure/Trackers/SettingsEventTracker.cs:47-53 | detaches from the service and forgets every listener |
| SettingsTracker.RegisterMeaning | RouterControl/Infrastructure/Trackers/SettingsEventTracker.cs:38-45 | a registration is accepted iff the name is non-empty, the listener present and the name new; the name is checked first |
| SettingsTracker.DispatchMeaning | RouterControl/Infrastructure/Trackers/SettingsEventTracker.cs:25-36 | a well-formed change reaches exactly the listener registered under its name, once, and is dropped when nobody is registered |
| SettingsTracker.RegisteredListenerIsNotified | RouterControl/Infrastructure/Trackers/SettingsEventTracker.cs:25-53 | a listener registered under a name receives that name's changes; after Dispose nobody does |
| SettingsService.SettingsStore.SetValue | RouterControl/Services/SettingsService.cs:65-99 | a write that throws leaves the store unchanged; otherwise exactly that property changes |
| SettingsService.ProgramSettingsItem.constructor | RouterControl/Services/SettingsService.cs:165-172 | a fresh item holds the default settings: no user, no password, the loopback address with port 0 and no interfaces |
| SettingsService.ProgramSettingsItem.Update | RouterControl/Services/SettingsService.cs:215-221 | the item now holds the given settings |
| SettingsService.ProgramSettingsItem.OnSave | RouterControl/Services/SettingsService.cs:191-205 | the six writes, in order, stop at the first that throws |
| SettingsService.ProgramSettingsItem.Save | RouterControl/Services/SettingsService.cs:101-118 | null throws; a failed write leaves the settings in memory unchanged and throws the save fault; a completed save holds the source |
| SettingsService.ProgramSettingsItem.Load | RouterControl/Services/SettingsService.cs:120-138 | loading follows the read sequence; on success the item holds what was read, on failure it throws the load fault |
| SettingsService.MissingPropertyReadsDefault | RouterControl/Services/SettingsService.cs:56-93 | a property the store does not hold reads as "", 0 or no bytes |
| SettingsService.EmptyStoreLoads | RouterControl/Services/SettingsService.cs:207-213 | an empty store loads the default settings, except that the empty address text loads as IPAddress.None |
| SettingsService.UnparsableAddressLoadsAsNone | RouterControl/Services/SettingsService.cs:174-183 | a stored address text that does not parse loads as IPAddress.None with the stored port |
| SettingsService.WriteFailsIffSomeWriteThrows | RouterControl/Services/SettingsService.cs:191-205 | a write sequence fails iff one of its writes throws, and the first one is reported |
| SettingsService.SavedStore | RouterControl/Services/SettingsService.cs:191-205 | six writes that succeed leave each property holding the value written |
| SettingsService.SaveThenLoad | RouterControl/Services/SettingsService.cs:101-138 | saving then loading gives back the saved settings, when no write throws, the port is valid and the address text parses back |
| SettingsService.SaveNullTouchesNothing | RouterControl/Services/SettingsService.cs:103 | Save(null) throws ArgumentNullException before the store is touched |
| SettingsService.SaveFaultWrapsWrite | RouterControl/Services/SettingsService.cs:107-116 | a failed save is one save fault around the exception of the first write that threw |
| SettingsForm.UserPasswordHelper.Initialization | RouterControl/Models/SettingsModel.cs:117-123 | stores the cipher, and a non-empty cipher puts the placeholder in as the value |
| SettingsForm.UserPasswordHelper.GetCipher | RouterControl/Models/SettingsModel.cs:125-130 | the loaded cipher unless a real password was typed, which is then encrypted |
| SettingsForm.UserPasswordHelper.SetValue | RouterControl/Models/SettingsModel.cs:132-135 | the typed value is stored |
| SettingsForm.UserPasswordHelper.GetValue | RouterControl/Models/SettingsModel.cs:137-142 | a blank value shows as itself, anything else as the placeholder |
| SettingsForm.SettingsModel.constructor | RouterControl/Models/SettingsModel.cs:48-51 | a new form is empty and not filled |
| SettingsForm.SettingsModel.SetUserPassword | RouterControl/Models/SettingsModel.cs:41-45 | setting the password changes only the typed value |
| SettingsForm.SettingsModel.FromEntity | RouterControl/Models/SettingsModel.cs:53-76 | null throws and marks the form not filled, leaving the fields; otherwise the form is filled from the settings and marked filled |
| SettingsForm.SettingsModel.ToEntity | RouterControl/Models/SettingsModel.cs:78-85 | the address parsed, then the port parsed, then the end point built, then the cipher taken; the first failure is thrown |
| SettingsForm.SettingsModel.CheckModel | RouterControl/Models/SettingsModel.cs:87-97 | the form passes iff every field is filled and the address and port parse |
| SettingsForm.ShownPasswordHidesValue | RouterControl/Models/SettingsModel.cs:137-142 | the form never shows a typed or stored password: what it shows equals the value only for a blank value or the placeholder, and is blank iff the value is |
| SettingsForm.LoadedCipherKept | RouterControl/Models/SettingsModel.cs:117-130 | a loaded non-empty cipher is saved back unchanged; with an empty one a password typed earlier is what gets encrypted |
| SettingsForm.ParseAgreesWithTryParse | RouterControl/Models/SettingsModel.cs:80 | int.Parse accepts exactly what int.TryParse accepts, with the same value |
| SettingsForm.FilledFormRoundTrip | RouterControl/Models/SettingsModel.cs:53-85 | filling the form from settings and converting it back gives the same settings, for a real port and an address whose text parses back |
| SettingsForm.FilledFormChecks | RouterControl/Models/SettingsModel.cs:53-97 | a filled form passes the check iff the user name, the password and both interface names are filled |
| SettingsForm.CheckedFormConverts | RouterControl/Models/SettingsModel.cs:78-97 | a checked form converts unless its port is outside 0..65535, which the check does not look at; the conversion then throws ArgumentOutOfRangeException |

## Left out

- Asynchrony, threads, locks and `Task.Delay`: each operation is one sequential run. Cancellation is a `CancellationToken` value that reads as set from a given check on.
- The MikroTik API client, the HTTP client, the ping and the password encryption are foreign code. They appear as oracles: function parameters or function fields of a datatype. The router oracle answers the same command the same way every time it is asked.
- Creating the router API object (`CreateRouterApi`) is assumed not to fail.
- `IPAddress.Parse`, `IPAddress.TryParse` and `IPAddress.ToString` are an abstract pair of functions (`AddressText`). Their round trip is a hypothesis of the lemmas that need it.
- Resource texts (`Strings.ItemHasAlreadyBeenAdded`, `Strings.FailedGettingDataFromTable`) are stand-in texts built from the same arguments. The resource file is not part of this model.
- A null string is modelled as "". `int.Parse` and `IPAddress.Parse` of a null text would throw ArgumentNullException, but the model reports a FormatException.
- The `ThrowIfNull` guards on `RouterAddress` and `NetworkInterfaces` (settings check, form model) are not modelled: these values are never null in the model.
- Constructors' null-argument guards on their injected services are not modelled, since there are no such services.
- A `CancellationToken` is cancelled from some poll on (`requestedAt` is a natural number). The source's endless run with a token that is never cancelled (`Actions.NotifierLoop`, `ConnectionMonitor.ConnectionStateNotifierService.StartNotificationsAsync`) is modelled only up to a finite horizon.
- A subscriber's `OnNext` or a `StateChanged` handler that throws would end the session or the loop in the source. In the model, deliveries and raised events cannot fail.
- Subscribers are fixed during a session. Deliveries are computed from the session's trace after it ends, not interleaved with it.
- The null-settings branch of `Load` (`Services/SettingsService.cs:128-129`) is unreachable, because `OnLoad` never returns null.
- The forwarding members of `SettingsService` (lines 16-29) only call the item's `Load` and `Save`.
- The store's `writeFault` depends only on the property name, not on the value written or on earlier writes.
- Disposing the `Ping` object and the `HttpClient` is not modelled.
- `Guard` is not part of this model. `StateNotifier.AddMeaning`, `SettingsTracker.RegisterMeaning` and `SettingsTracker.DispatchMeaning` assume that `Guard.ThrowIfEmptyString` rejects exactly the empty (or null) string with an ArgumentException for the parameter. A name made only of white space is therefore accepted. The texts of `Errors.NullArgument` and `Errors.EmptyArgument` are stand-ins.
- `SettingsForm.UserPasswordHelper.GetCipher` and `SettingsForm.SettingsModel.ToEntity` assume that encryption cannot fail: the `encrypt` oracle returns a cipher for every text. In the source, `ProtectedData.Protect` can throw, and `ToEntity` would then throw after both parses; `Entity` has no such path.
- The view models, the tray UI, autorun, the registry-backed store provider and the credential service's encryption are outside this core.
- `Correlator.AddLease` follows the code as written: the guard before `Dictionary.Add` looks up the lease's MAC address among the host map's keys, which are interface names. Comparing against the lease map's own keys looks intended, but that second case is caught by `Dictionary.Add` anyway, which `Correlator.LeaseRejectionStops` states. Two effects follow. A lease whose MAC address equals an interface name is rejected. A repeated MAC address is rejected by `Dictionary.Add`, so the inner exception is the dictionary's duplicate-key error and not the guard's `ItemHasAlreadyBeenAdded` text.
