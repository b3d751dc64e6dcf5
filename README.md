# TLS handshake flow, modelled in Dafny

This project models the handshake layer of a PHP TLS library:

- **Handshake state machines.** These are table-driven machines for a generic client and server, TLS 1.2 client and server, and TLS 1.3 client and server.
  - Each machine holds a current state, the list of states it may be moved to, and a transition table `state -> message type -> next state`.
  - Looking up a message never moves a machine. `transitionTo` moves it to any accepted state.
  - A few moves happen outside the table: ChangeCipherSpec, the server's own Finished, and the end of 0-RTT early data.
  - In TLS 1.3, PSK mode rewrites one entry of the client's and of the server's table, and 0-RTT rewrites one entry of the server's table. The client's 0-RTT flag is only stored.
- **Stage flow.** Five coarse stages only move forward. Each stage accepts a fixed list of message types.
- **Extensions.** The model covers:
  - the 16-bit helpers that all extensions share;
  - the extension code points;
  - the renegotiation_info extension of RFC 5746, with its one-byte length prefix;
  - the post_handshake_auth extension of RFC 8446, which has an empty body.
- **Renegotiation and post-handshake authentication managers.** The renegotiation manager covers the RFC 5746 verify-data checks and a counter that limits renegotiations. The post-handshake-auth manager covers the TLS 1.3 flag.
- **Protocol lifecycle.** This is the four-valued protocol state and the base class that moves it.

Modelling choices:

- The machines are classes over one shared `AbstractStateMachine.HandshakeStateMachine`. It has the fields `currentState`, `validStates` and `transitions`, and its methods change them in place.
- Each variant class says, in a `Valid()` predicate, that its machine's table equals a pure table function. Examples are `Tls12ServerMachine.Tls12ServerTable()` and `Tls13ServerMachine.Tls13ServerTable(psk, earlyData)`. Lemmas about those functions state the paths and dead ends of each table.
- Methods that throw in the source return `Outcome`/`Result` instead. `transitionTo` fails with `InvalidState`. `advanceToStage` fails with `StageRegression`. `decode` fails with `ExtensionTruncated` or `ExtensionLengthMismatch`. `decodeUint16` fails with `Uint16Unavailable`.
- PHP binary strings are `seq<byte>`.
- PHP operations are written out as PHP defines them:
  - `chr` wraps its argument modulo 256.
  - `pack('n')` keeps the low 16 bits.
  - `substr` counts a negative offset from the end.

## Model

| member | source | states |
|---|---|---|
| TransitionTables.Step | src/StateMachine/AbstractHandshakeStateMachine.php:90-98 | the next state is the table's entry for (current state, message) when there is one, and ERROR when there is none |
| TransitionTables.StepIsErrorExactlyOnMiss | src/StateMachine/AbstractHandshakeStateMachine.php:90-98 | in a table where no entry targets ERROR, the lookup yields ERROR exactly when the entry is missing |
| TransitionTables.RunAppend | src/StateMachine/AbstractHandshakeStateMachine.php:90-98 | following two message sequences in a row through the table is the same as following their concatenation |
| TransitionTables.ErrorIsAbsorbing | src/StateMachine/AbstractHandshakeStateMachine.php:90-98 | if ERROR has no row, every message sequence starting from ERROR stays in ERROR |
| TransitionTables.DeadEndFallsIntoError | src/StateMachine/AbstractHandshakeStateMachine.php:90-98 | any non-empty message sequence from a state without entries ends in ERROR |
| AbstractStateMachine.DefaultValidStates | src/StateMachine/AbstractHandshakeStateMachine.php:47-69 | the default list holds eighteen pairwise distinct states |
| AbstractStateMachine.DefaultValidStatesCoverAll | src/StateMachine/AbstractHandshakeStateMachine.php:47-69 | every state of the enumeration is in the default list, so every move between enumeration states is accepted |
| AbstractStateMachine.HandshakeStateMachine.constructor | src/StateMachine/AbstractHandshakeStateMachine.php:18-42 | a new machine is in INITIAL with the given accepted states and an empty table; it is neither in error nor completed |
| AbstractStateMachine.HandshakeStateMachine.SetRow | src/StateMachine/AbstractHandshakeStateMachine.php:27-33 | writing a row replaces that state's whole row and changes nothing else |
| AbstractStateMachine.HandshakeStateMachine.SetEntry | src/StateMachine/TLS12ClientStateMachine.php:59 | writing one entry keeps the rest of that row and the rest of the table |
| AbstractStateMachine.HandshakeStateMachine.TransitionTo | src/StateMachine/AbstractHandshakeStateMachine.php:81-88 | a move to an accepted state succeeds whatever the table says; a move to any other state fails with InvalidState and the machine stays where it was |
| AbstractStateMachine.HandshakeStateMachine.GetNextState | src/StateMachine/AbstractHandshakeStateMachine.php:90-98 | looks up the table from the current state, with ERROR on a miss, and moves nothing |
| AbstractStateMachine.HandshakeStateMachine.IsInErrorState | src/StateMachine/AbstractHandshakeStateMachine.php:100-108 | a machine in ERROR has not completed the handshake |
| AbstractStateMachine.HandshakeStateMachine.IsHandshakeCompleted | src/StateMachine/AbstractHandshakeStateMachine.php:105-108 | the handshake is completed exactly in the state backed by the string "CONNECTED" |
| AbstractStateMachine.HandshakeStateMachine.Reset | src/StateMachine/AbstractHandshakeStateMachine.php:110-113 | a reset returns the machine to INITIAL from any state and keeps the table and the accepted states |
| AbstractStateMachine.GuardedMove | src/StateMachine/TLS12ClientStateMachine.php:89-96 | a manual move reaches its target exactly when the machine was in the expected state, and ERROR otherwise |
| AbstractStateMachine.ApplyMessage | src/StateMachine/AbstractHandshakeStateMachine.php:81-98 | a received message moves the machine to the state the table gives for it, and the move reports success, exactly when that state is accepted; otherwise the machine stays where it was |
| AbstractStateMachine.RestrictedMachineRefusesMove | src/StateMachine/AbstractHandshakeStateMachine.php:81-88 | a machine that accepts only INITIAL refuses a move to WAIT_SERVER_HELLO and stays in INITIAL, and accepts a move to INITIAL each time it is asked |
| HandshakeStates.HandshakeState.Value | src/StateMachine/HandshakeStateEnum.php:23-108 | every case is backed by a non-empty string; that the strings are distinct and that `tryFrom` inverts them is stated by ValueInjective and FromValueInvertsValue |
| HandshakeStates.HandshakeState.Label | src/StateMachine/HandshakeStateEnum.php:115-137 | every state has a non-empty label |
| HandshakeStates.FromValue | src/StateMachine/HandshakeStateEnum.php:23-108 | `tryFrom` returns only a case backed by the given string |
| HandshakeStates.ValueInjective | src/StateMachine/HandshakeStateEnum.php:23-108 | distinct states are backed by distinct strings |
| HandshakeStates.FromValueInvertsValue | src/StateMachine/HandshakeStateEnum.php:23-108 | `tryFrom` of a case's value gives that case back, and finds a case exactly when that case carries the string |
| HandshakeStates.FromValueUnknown | src/StateMachine/HandshakeStateEnum.php:23-108 | `tryFrom` finds no case for a string that backs none |
| ClientMachine.ClientStateMachine.constructor | src/StateMachine/ClientStateMachine.php:17-53 | the generic client accepts every state and its table is the client table |
| ClientMachine.ClientFullHandshake | src/StateMachine/ClientStateMachine.php:17-53 | ClientHello through Finished leads from INITIAL to CONNECTED |
| ClientMachine.ClientTableOptionalMessages | src/StateMachine/ClientStateMachine.php:22-48 | ServerHello and EncryptedExtensions are interchangeable; ServerKeyExchange may be left out; ClientKeyExchange leads to WAIT_FINISHED |
| ClientMachine.ClientInitialAcceptsOnlyClientHello | src/StateMachine/ClientStateMachine.php:17-19 | INITIAL accepts a message exactly when it is ClientHello |
| ClientMachine.ClientTerminalStates | src/StateMachine/ClientStateMachine.php:17-53 | every message from CONNECTED or ERROR leads to ERROR; no entry targets ERROR |
| ServerMachine.ServerStateMachine.constructor | src/StateMachine/ServerStateMachine.php:17-51 | the generic server accepts every state and its table is the server table |
| ServerMachine.ServerFullHandshake | src/StateMachine/ServerStateMachine.php:17-51 | the full server flow leads from INITIAL to CONNECTED |
| ServerMachine.ServerTableBranches | src/StateMachine/ServerStateMachine.php:17-41 | ClientHello goes straight to WAIT_CERTIFICATE; in WAIT_CLIENT_KEY_EXCHANGE, ClientKeyExchange and Finished branch |
| ServerMachine.ServerDeadEnds | src/StateMachine/ServerStateMachine.php:17-51 | WAIT_SERVER_HELLO, CONNECTED and ERROR have no entries, so every message from them leads to ERROR |
| ServerMachine.ServerResetAfterConnected | src/StateMachine/AbstractHandshakeStateMachine.php:110-113 | a server that reached CONNECTED is in INITIAL after a reset |
| Tls12ClientMachine.Tls12ClientTableAssembled | src/StateMachine/TLS12ClientStateMachine.php:17-64 | the whole rows, the added CertificateRequest entry and the CertificateVerify row together make the TLS 1.2 client table |
| Tls12ClientMachine.TLS12ClientStateMachine.constructor | src/StateMachine/TLS12ClientStateMachine.php:17-64 | the TLS 1.2 client accepts every state and its table is the TLS 1.2 client table |
| Tls12ClientMachine.TLS12ClientStateMachine.CanSkipState | src/StateMachine/TLS12ClientStateMachine.php:74-84 | only WAIT_SERVER_KEY_EXCHANGE and WAIT_CERTIFICATE_VERIFY can be skipped, to WAIT_SERVER_HELLO_DONE and WAIT_CHANGE_CIPHER_SPEC |
| Tls12ClientMachine.TLS12ClientStateMachine.SkipFollowsTable | src/StateMachine/TLS12ClientStateMachine.php:74-84 | each skip lands on a state that the table reaches from the skipped state |
| Tls12ClientMachine.TLS12ClientStateMachine.ProcessChangeCipherSpec | src/StateMachine/TLS12ClientStateMachine.php:89-96 | ChangeCipherSpec leads from WAIT_CHANGE_CIPHER_SPEC to WAIT_FINISHED, and from any other state to ERROR |
| Tls12ClientMachine.Tls12ClientTablePath | src/StateMachine/TLS12ClientStateMachine.php:17-56 | the table path ends in WAIT_CHANGE_CIPHER_SPEC; ChangeCipherSpec, then Finished, completes the handshake |
| Tls12ClientMachine.Tls12ClientPathSteps | src/StateMachine/TLS12ClientStateMachine.php:17-56 | each single step of the full client path |
| Tls12ClientMachine.Tls12ClientTableEntries | src/StateMachine/TLS12ClientStateMachine.php:59-64 | CertificateRequest may follow ServerKeyExchange; CertificateVerify leads to WAIT_CHANGE_CIPHER_SPEC; an out-of-order message leads to ERROR |
| Tls12ClientMachine.Tls12ClientChangeCipherSpecIsNotAMessage | src/StateMachine/TLS12ClientStateMachine.php:48-51 | WAIT_CHANGE_CIPHER_SPEC accepts no handshake message |
| Tls12ClientMachine.Tls12ClientCompleteHandshake | src/StateMachine/TLS12ClientStateMachine.php:17-96 | driving the machine's own operations through a full handshake ends in CONNECTED |
| Tls12ClientMachine.Tls12ClientEarlyChangeCipherSpec | src/StateMachine/TLS12ClientStateMachine.php:89-96 | a ChangeCipherSpec in INITIAL puts the client in ERROR |
| Tls12ServerMachine.TLS12ServerStateMachine.constructor | src/StateMachine/TLS12ServerStateMachine.php:17-75 | the TLS 1.2 server accepts every state, its table is the TLS 1.2 server table, and no client certificate is required |
| Tls12ServerMachine.TLS12ServerStateMachine.SetClientCertificateRequired | src/StateMachine/TLS12ServerStateMachine.php:83-86 | records the flag |
| Tls12ServerMachine.TLS12ServerStateMachine.ProcessChangeCipherSpec | src/StateMachine/TLS12ServerStateMachine.php:99-106 | ChangeCipherSpec leads from WAIT_CHANGE_CIPHER_SPEC to WAIT_FINISHED, and from any other state to ERROR |
| Tls12ServerMachine.TLS12ServerStateMachine.PrepareServerFinished | src/StateMachine/TLS12ServerStateMachine.php:111-119 | the handshake is complete afterwards exactly when the server was in WAIT_CLIENT_FINISHED; otherwise the server is in ERROR |
| Tls12ServerMachine.TLS12ServerStateMachine.CanSkipState | src/StateMachine/TLS12ServerStateMachine.php:128-138 | only WAIT_SERVER_KEY_EXCHANGE and WAIT_CERTIFICATE_VERIFY can be skipped |
| Tls12ServerMachine.TLS12ServerStateMachine.SkipFollowsTable | src/StateMachine/TLS12ServerStateMachine.php:128-138 | each skip lands on a state that the table reaches from the skipped state |
| Tls12ServerMachine.Tls12ServerTablePaths | src/StateMachine/TLS12ServerStateMachine.php:22-75 | the paths with and without a client certificate both reach WAIT_CHANGE_CIPHER_SPEC; Finished then leads to WAIT_CLIENT_FINISHED |
| Tls12ServerMachine.Tls12ServerCertificatePath | src/StateMachine/TLS12ServerStateMachine.php:49-62 | a client certificate leads through WAIT_CLIENT_KEY_EXCHANGE_WITH_CERT and WAIT_CERTIFICATE_VERIFY to WAIT_CHANGE_CIPHER_SPEC |
| Tls12ServerMachine.Tls12ServerPathSteps | src/StateMachine/TLS12ServerStateMachine.php:22-72 | each single step of the server path |
| Tls12ServerMachine.Tls12ServerManualStates | src/StateMachine/TLS12ServerStateMachine.php:67-75 | WAIT_CHANGE_CIPHER_SPEC, WAIT_CLIENT_FINISHED and CONNECTED accept no handshake message; no entry targets ERROR |
| Tls12ServerMachine.Tls12ServerCompleteHandshake | src/StateMachine/TLS12ServerStateMachine.php:22-119 | the table, ChangeCipherSpec and the server's Finished together end in CONNECTED |
| Tls12ServerMachine.Tls12ServerEarlyFinished | src/StateMachine/TLS12ServerStateMachine.php:83-119 | preparing Finished in INITIAL puts the server in ERROR, and the certificate flag is only stored |
| Tls13ClientMachine.Tls13ClientTableAssembled | src/StateMachine/TLS13ClientStateMachine.php:27-73 | the whole rows, the CertificateRequest entry and the WAIT_CLIENT_CERTIFICATE row make the initial TLS 1.3 client table |
| Tls13ClientMachine.Tls13ClientRetarget | src/StateMachine/TLS13ClientStateMachine.php:81-91 | rewriting the EncryptedExtensions entry turns the table for one PSK mode into the table for the other |
| Tls13ClientMachine.TLS13ClientStateMachine.constructor | src/StateMachine/TLS13ClientStateMachine.php:17-73 | the client starts with PSK mode and 0-RTT off and with the full-handshake table |
| Tls13ClientMachine.TLS13ClientStateMachine.SetPSKMode | src/StateMachine/TLS13ClientStateMachine.php:81-91 | the flag and the EncryptedExtensions entry are set together, and the current state is kept |
| Tls13ClientMachine.TLS13ClientStateMachine.SetEarlyDataEnabled | src/StateMachine/TLS13ClientStateMachine.php:98-101 | records the flag only |
| Tls13ClientMachine.TLS13ClientStateMachine.CanSkipState | src/StateMachine/TLS13ClientStateMachine.php:118-131 | skipping is possible exactly in PSK mode from WAIT_CERTIFICATE or WAIT_CERTIFICATE_VERIFY, and always to WAIT_FINISHED |
| Tls13ClientMachine.TLS13ClientStateMachine.SkipFollowsTable | src/StateMachine/TLS13ClientStateMachine.php:118-131 | each skip lands on a state that the current table reaches from the skipped state |
| Tls13ClientMachine.TLS13ClientStateMachine.HandlePSKRejection | src/StateMachine/TLS13ClientStateMachine.php:136-142 | as written: in WAIT_ENCRYPTED_EXTENSIONS the flag is cleared and the table entry is left unchanged |
| Tls13ClientMachine.TLS13ClientStateMachine.HandlePSKRejectionRestoringRoute | src/StateMachine/TLS13ClientStateMachine.php:136-142 | corrected: in WAIT_ENCRYPTED_EXTENSIONS the flag and the table entry both go back to the full handshake |
| Tls13ClientMachine.Tls13ClientFullPath | src/StateMachine/TLS13ClientStateMachine.php:27-65 | the full handshake without PSK reaches CONNECTED |
| Tls13ClientMachine.Tls13ClientPskPath | src/StateMachine/TLS13ClientStateMachine.php:27-91 | PSK resumption skips the certificates and reaches CONNECTED |
| Tls13ClientMachine.Tls13ClientCertificateRequestPath | src/StateMachine/TLS13ClientStateMachine.php:68-73 | a CertificateRequest inserts WAIT_CLIENT_CERTIFICATE, and the handshake still reaches CONNECTED in either mode |
| Tls13ClientMachine.Tls13ClientPathSteps | src/StateMachine/TLS13ClientStateMachine.php:27-73 | each single step of the client table, for both modes |
| Tls13ClientMachine.PskModeChangesOneEntry | src/StateMachine/TLS13ClientStateMachine.php:81-91 | PSK mode changes the EncryptedExtensions entry and no other lookup |
| Tls13ClientMachine.Tls13ClientCompleteHandshake | src/StateMachine/TLS13ClientStateMachine.php:27-73 | driving the machine's own operations through a full handshake ends in CONNECTED |
| Tls13ClientMachine.Tls13ClientPskResumption | src/StateMachine/TLS13ClientStateMachine.php:81-131 | in PSK mode EncryptedExtensions leads to WAIT_FINISHED, and WAIT_CERTIFICATE can be skipped |
| Tls13ClientMachine.Tls13ClientPskRejectionAsWritten | src/StateMachine/TLS13ClientStateMachine.php:136-142 | after a rejection as written, nothing can be skipped, yet EncryptedExtensions still leads to WAIT_FINISHED and the full handshake's Certificate leads to ERROR |
| Tls13ClientMachine.Tls13ClientPskRejectionRestored | src/StateMachine/TLS13ClientStateMachine.php:136-142 | after the corrected rejection, EncryptedExtensions leads to WAIT_CERTIFICATE and the full handshake reaches CONNECTED |
| Tls13ServerMachine.Tls13ServerInitialTable | src/StateMachine/TLS13ServerStateMachine.php:32-86 | the rows as the constructor writes them form the table with both modes off |
| Tls13ServerMachine.Tls13ServerRetargetPsk | src/StateMachine/TLS13ServerStateMachine.php:94-104 | rewriting the EncryptedExtensions entry switches the table's PSK mode and nothing else |
| Tls13ServerMachine.Tls13ServerRetargetEarlyData | src/StateMachine/TLS13ServerStateMachine.php:111-121 | rewriting the ClientHello entry switches the table's 0-RTT mode and nothing else |
| Tls13ServerMachine.TLS13ServerStateMachine.constructor | src/StateMachine/TLS13ServerStateMachine.php:17-86 | the server starts with every mode off and with the matching table |
| Tls13ServerMachine.TLS13ServerStateMachine.SetPSKMode | src/StateMachine/TLS13ServerStateMachine.php:94-104 | the flag and the EncryptedExtensions entry change together |
| Tls13ServerMachine.TLS13ServerStateMachine.SetEarlyDataEnabled | src/StateMachine/TLS13ServerStateMachine.php:111-121 | the flag and the ClientHello entry change together: PROCESS_EARLY_DATA when on, WAIT_SERVER_HELLO when off |
| Tls13ServerMachine.TLS13ServerStateMachine.SetClientCertificateRequired | src/StateMachine/TLS13ServerStateMachine.php:136-139 | records the flag; the other modes are unchanged |
| Tls13ServerMachine.TLS13ServerStateMachine.EarlyDataProcessed | src/StateMachine/TLS13ServerStateMachine.php:144-151 | the server moves from PROCESS_EARLY_DATA to WAIT_SERVER_HELLO, and from any other state to ERROR |
| Tls13ServerMachine.TLS13ServerStateMachine.CanSkipState | src/StateMachine/TLS13ServerStateMachine.php:160-173 | skipping is possible exactly in PSK mode from the two certificate states, to WAIT_FINISHED |
| Tls13ServerMachine.TLS13ServerStateMachine.SkipFollowsTable | src/StateMachine/TLS13ServerStateMachine.php:160-173 | each skip lands on a state that the current table reaches from the skipped state |
| Tls13ServerMachine.TLS13ServerStateMachine.ShouldRequestClientCertificate | src/StateMachine/TLS13ServerStateMachine.php:178-182 | a request happens only when a certificate is required, and always then in WAIT_CERTIFICATE, where the table accepts CertificateRequest |
| Tls13ServerMachine.Tls13ServerPathSteps | src/StateMachine/TLS13ServerStateMachine.php:32-72 | each single step of the server table, for every combination of modes |
| Tls13ServerMachine.Tls13ServerFullPath | src/StateMachine/TLS13ServerStateMachine.php:32-72 | the full handshake without PSK or 0-RTT reaches CONNECTED |
| Tls13ServerMachine.Tls13ServerPskPath | src/StateMachine/TLS13ServerStateMachine.php:94-104 | in PSK mode, the path without certificates reaches CONNECTED |
| Tls13ServerMachine.Tls13ServerEarlyDataIsManual | src/StateMachine/TLS13ServerStateMachine.php:74-77 | PROCESS_EARLY_DATA accepts no handshake message; no entry targets ERROR |
| Tls13ServerMachine.Tls13ServerClientCertificateRowsUnreached | src/StateMachine/TLS13ServerStateMachine.php:79-86 | no table entry leads into WAIT_CLIENT_CERTIFICATE |
| Tls13ServerMachine.Tls13ServerModesChangeOnlyTheirEntries | src/StateMachine/TLS13ServerStateMachine.php:94-121 | every lookup outside the two mode entries is the same in every mode |
| Tls13ServerMachine.Tls13ServerCompleteHandshake | src/StateMachine/TLS13ServerStateMachine.php:32-86 | driving the machine's own operations through a full handshake ends in CONNECTED |
| Tls13ServerMachine.Tls13ServerEarlyData | src/StateMachine/TLS13ServerStateMachine.php:111-151 | with 0-RTT on, ClientHello leads to PROCESS_EARLY_DATA, finishing early data leads to WAIT_SERVER_HELLO, and finishing it again leads to ERROR |
| Tls13ServerMachine.Tls13ServerRequestsClientCertificate | src/StateMachine/TLS13ServerStateMachine.php:178-182 | a required certificate is not requested in INITIAL but is requested in WAIT_CERTIFICATE |
| HandshakeStages.HandshakeStage.Value | src/Handshake/HandshakeStage.php:23-43 | the stages are backed by 1 to 5 |
| HandshakeStages.HandshakeStage.Label | src/Handshake/HandshakeStage.php:50-59 | every stage has a non-empty label |
| HandshakeStages.StageFromValue | src/Handshake/HandshakeStage.php:23-43 | `tryFrom` finds a stage exactly for 1 to 5, and it is the stage backed by that value |
| HandshakeStages.StageFromValueInverts | src/Handshake/HandshakeStage.php:23-43 | `tryFrom` inverts the value, so the values are distinct |
| HandshakeStages.StageValuesIncrease | src/Handshake/HandshakeStage.php:23-43 | the values increase strictly in declaration order |
| HandshakeFlows.StageMessagesPartition | src/Handshake/HandshakeFlow.php:37-66 | every stage has a list, and each message type is in exactly one stage's list |
| HandshakeFlows.AdvanceStep | src/Handshake/AbstractHandshakeFlow.php:25-32 | an advance succeeds, to the target, exactly when the target is not earlier than the current stage; otherwise it fails with StageRegression |
| HandshakeFlows.AdvancesMonotone | src/Handshake/AbstractHandshakeFlow.php:25-32 | a sequence of advances succeeds exactly when it never steps back, and then it ends at the last target, no earlier than the start |
| HandshakeFlows.HandshakeFlow.constructor | src/Handshake/HandshakeFlow.php:26-66 | a new flow is in the initial stage with every stage's list written |
| HandshakeFlows.HandshakeFlow.ExpectedMessageTypes | src/Handshake/HandshakeFlow.php:69-72 | the list for a stage holds exactly the message types of that stage |
| HandshakeFlows.HandshakeFlow.AdvanceToStage | src/Handshake/AbstractHandshakeFlow.php:25-32 | a refused advance leaves the stage unchanged; an accepted one moves to the target |
| HandshakeFlows.HandshakeFlow.IsStageCompleted | src/Handshake/AbstractHandshakeFlow.php:34-37 | a stage is completed exactly when the flow is past it, so the current stage never is |
| HandshakeFlows.HandshakeFlow.AcceptsMessageType | src/Handshake/AbstractHandshakeFlow.php:39-44 | a message type is accepted exactly in its own stage |
| HandshakeFlows.FreshFlowGate | src/Handshake/AbstractHandshakeFlow.php:39-44 | a new flow accepts ClientHello and refuses ServerHello and Finished |
| HandshakeFlows.FlowRefusesRegression | src/Handshake/AbstractHandshakeFlow.php:25-37 | going back from KEY_EXCHANGE to NEGOTIATING is refused, repeating a stage is allowed, and the stages before the current one count as completed |
| ExtensionTypes.ExtensionType.Code | src/Extension/ExtensionType.php:25-172 | every code fits in 16 bits |
| ExtensionTypes.ExtensionType.Label | src/Extension/ExtensionType.php:179-213 | every extension type has a non-empty label |
| ExtensionTypes.ExtensionTypeFromCode | src/Extension/ExtensionType.php:25-172 | `tryFrom` returns only a case that carries the code |
| ExtensionTypes.ExtensionTypeFromCodeInverts | src/Extension/ExtensionType.php:25-172 | `tryFrom` of a case's code gives the case back |
| ExtensionTypes.ExtensionTypeFromCodeExact | src/Extension/ExtensionType.php:25-172 | `tryFrom` finds a case exactly when the case carries the code |
| ExtensionTypes.ExtensionCodesDistinct | src/Extension/ExtensionType.php:25-172 | no two cases share a code |
| ExtensionTypes.KnownExtensionCodes | src/Extension/ExtensionType.php:56 | RENEGOTIATION_INFO is 0x00FF, and the codes the extensions use are as declared; a code that no case carries finds nothing |
| ExtensionCodec.EncodeUint16 | src/Extension/AbstractExtension.php:21-24 | encoding gives two big-endian bytes of the value modulo 2^16 |
| ExtensionCodec.SubstrStart | src/Extension/AbstractExtension.php:34-36 | `substr` starts at the offset when it is in range, counts a negative offset from the end, and never starts past the end |
| ExtensionCodec.DecodeUint16 | src/Extension/AbstractExtension.php:34-45 | decoding succeeds exactly when two bytes are at the offset; the value is their big-endian reading and the new offset is offset+2 |
| ExtensionCodec.Uint16RoundTrip | src/Extension/AbstractExtension.php:21-45 | decoding at the position where a value was encoded gives back the value modulo 2^16 and the offset past it |
| ExtensionCodec.EncodeUint16Example | src/Extension/AbstractExtension.php:21-45 | 0x1234 is written as the bytes 0x12 0x34 and read back |
| ExtensionCodec.Uint16NegativeOffset | src/Extension/AbstractExtension.php:34-45 | decoding at offset -2 reads the last two bytes and reports new offset 0 |
| ExtensionCodec.Uint16TooShort | src/Extension/AbstractExtension.php:34-39 | one byte, or no bytes, cannot be decoded |
| ExtensionCodec.DefaultIsApplicableForVersion | src/Extension/AbstractExtension.php:56-59 | by default an extension applies to every version |
| RenegotiationInfoExtensions.LengthByte | src/Extension/RenegotiationInfoExtension.php:64-66 | the length byte equals the length when the length is below 256 |
| RenegotiationInfoExtensions.EncodeRenegotiationInfo | src/Extension/RenegotiationInfoExtension.php:60-67 | the body is the length modulo 256 in one byte, followed by the value |
| RenegotiationInfoExtensions.DecodeRenegotiationInfo | src/Extension/RenegotiationInfoExtension.php:72-92 | an empty body is truncated; a length byte larger than what follows is a mismatch; otherwise the value is the bytes the length byte names, and re-encoding it gives that prefix of the body |
| RenegotiationInfoExtensions.RenegotiationInfoRoundTrip | src/Extension/RenegotiationInfoExtension.php:60-92 | decoding an encoded value below 256 bytes gives it back, whatever follows; a longer value comes back cut to its length modulo 256 |
| RenegotiationInfoExtensions.RenegotiationInfoExamples | src/Extension/RenegotiationInfoExtension.php:60-92 | the empty value is the byte 0; "test" is written behind the byte 4; an empty body and a length 16 with four bytes are refused |
| RenegotiationInfoExtensions.RenegotiationInfoExtension.constructor | src/Extension/RenegotiationInfoExtension.php:23-33 | a new extension carries the empty value |
| RenegotiationInfoExtensions.RenegotiationInfoExtension.GetType | src/Extension/RenegotiationInfoExtension.php:35-38 | the type is 0x00FF, which `tryFrom` reads as RENEGOTIATION_INFO |
| RenegotiationInfoExtensions.RenegotiationInfoExtension.SetRenegotiatedConnection | src/Extension/RenegotiationInfoExtension.php:45-48 | stores the value |
| RenegotiationInfoExtensions.RenegotiationInfoExtension.Encode | src/Extension/RenegotiationInfoExtension.php:60-67 | an extension whose value fits the length byte decodes back to that value |
| RenegotiationInfoExtensions.DecodeExtension | src/Extension/RenegotiationInfoExtension.php:72-92 | succeeds exactly when the body decodes, with a fresh extension holding the decoded value, and otherwise returns the decoding error |
| PostHandshakeAuthExtensions.PostHandshakeAuthExtension.GetType | src/Extension/PostHandshakeAuthExtension.php:20-28 | the type is 0x0031, which `tryFrom` reads as POST_HANDSHAKE_AUTH |
| PostHandshakeAuthExtensions.PostHandshakeAuthExtension.Encode | src/Extension/PostHandshakeAuthExtension.php:30-34 | the body is empty |
| PostHandshakeAuthExtensions.PostHandshakeAuthExtension.IsApplicableForVersion | src/Extension/PostHandshakeAuthExtension.php:45-49 | applies exactly to the version string "1.3" |
| PostHandshakeAuthExtensions.DecodePostHandshakeAuth | src/Extension/PostHandshakeAuthExtension.php:39-43 | every body decodes |
| PostHandshakeAuthExtensions.PostHandshakeAuthRoundTrip | src/Extension/PostHandshakeAuthExtension.php:30-49 | decoding the encoding gives the extension back; "1.3" applies and "1.2" does not |
| RenegotiationManagers.RenegotiationSupported | src/Handshake/RenegotiationManager.php:57-61 | renegotiation exists exactly in the versions before TLS 1.3 |
| RenegotiationManagers.ServerRenegotiatedConnection | src/Handshake/RenegotiationManager.php:202-212 | during a secure renegotiation the server's value is the client's verify data followed by the server's; otherwise it is empty |
| RenegotiationManagers.AcceptsClientRenegotiation | src/Handshake/RenegotiationManager.php:221-235 | nothing is accepted without secure renegotiation; with it, an initial handshake wants the empty value and a renegotiation wants the client's verify data |
| RenegotiationManagers.AcceptsServerRenegotiation | src/Handshake/RenegotiationManager.php:244-260 | as for the client, but a renegotiation wants the client's verify data followed by the server's |
| RenegotiationManagers.ClientRenegotiatedConnection | src/Handshake/RenegotiationManager.php:221-235 | corrected client value: the client check accepts it exactly when secure renegotiation is on |
| RenegotiationManagers.RenegotiationManager.constructor | src/Handshake/RenegotiationManager.php:23-48 | a new manager has secure renegotiation off, is not renegotiating, holds no verify data, has count 0 and limit 3 |
| RenegotiationManagers.RenegotiationManager.IsSupportedForVersion | src/Handshake/RenegotiationManager.php:57-61 | agrees with RenegotiationSupported |
| RenegotiationManagers.RenegotiationManager.SetSecureRenegotiation | src/Handshake/RenegotiationManager.php:68-71 | sets the flag and nothing else |
| RenegotiationManagers.RenegotiationManager.StartRenegotiation | src/Handshake/RenegotiationManager.php:86-91 | sets renegotiating and nothing else |
| RenegotiationManagers.RenegotiationManager.EndRenegotiation | src/Handshake/RenegotiationManager.php:96-101 | clears renegotiating and nothing else |
| RenegotiationManagers.RenegotiationManager.StoreClientVerifyData | src/Handshake/RenegotiationManager.php:118-123 | stores the client's verify data and nothing else |
| RenegotiationManagers.RenegotiationManager.StoreServerVerifyData | src/Handshake/RenegotiationManager.php:130-135 | stores the server's verify data and nothing else |
| RenegotiationManagers.RenegotiationManager.SetRenegotiationLimit | src/Handshake/RenegotiationManager.php:162-165 | sets the limit to any integer and changes nothing else |
| RenegotiationManagers.RenegotiationManager.IncrementRenegotiationCount | src/Handshake/RenegotiationManager.php:170-175 | the count grows by one and nothing else changes |
| RenegotiationManagers.RenegotiationManager.CanRenegotiate | src/Handshake/RenegotiationManager.php:182-185 | another renegotiation is allowed exactly while the count is below the limit |
| RenegotiationManagers.RenegotiationManager.CreateRenegotiationInfoExtension | src/Handshake/RenegotiationManager.php:192-195 | as written: always a fresh extension with the empty value |
| RenegotiationManagers.RenegotiationManager.CreateClientRenegotiationInfoExtension | src/Handshake/RenegotiationManager.php:192-195 | corrected: a fresh extension with the client's verify data during a secure renegotiation, and empty otherwise |
| RenegotiationManagers.RenegotiationManager.CreateServerRenegotiationInfoExtension | src/Handshake/RenegotiationManager.php:202-212 | a fresh extension holding the server value of ServerRenegotiatedConnection |
| RenegotiationManagers.RenegotiationManager.ProcessClientRenegotiationExtension | src/Handshake/RenegotiationManager.php:221-235 | agrees with AcceptsClientRenegotiation on the extension's value |
| RenegotiationManagers.RenegotiationManager.ProcessServerRenegotiationExtension | src/Handshake/RenegotiationManager.php:244-260 | agrees with AcceptsServerRenegotiation on the extension's value |
| RenegotiationManagers.ServerPayloadAccepted | src/Handshake/RenegotiationManager.php:202-260 | with secure renegotiation on, the server's own value passes the server check, also after encoding and decoding; with it off, no value passes either check |
| RenegotiationManagers.ClientExtensionDuringRenegotiation | src/Handshake/RenegotiationManager.php:192-235 | during a secure renegotiation with non-empty verify data, the client check refuses the empty value and accepts the corrected client value, also after the wire |
| RenegotiationManagers.SecureRenegotiationExchange | src/Handshake/RenegotiationManager.php:192-260 | in one renegotiation, the general extension is refused, while the corrected client extension and the server extension are accepted |
| RenegotiationManagers.RenegotiationLimitScenario | src/Handshake/RenegotiationManager.php:162-185 | a new manager may renegotiate; with limit 2 exactly two renegotiations are allowed; limit 0 allows none |
| PostHandshakeAuthManagers.PostHandshakeAuthSupported | src/Handshake/PostHandshakeAuthManager.php:96-100 | post-handshake authentication exists exactly in TLS 1.3 |
| PostHandshakeAuthManagers.RenegotiationOrPostHandshakeAuth | src/Handshake/PostHandshakeAuthManager.php:96-100 | every version supports exactly one of renegotiation and post-handshake authentication |
| PostHandshakeAuthManagers.PostHandshakeAuthManager.constructor | src/Handshake/PostHandshakeAuthManager.php:22-27 | a new manager is disabled and not requesting |
| PostHandshakeAuthManagers.PostHandshakeAuthManager.SetEnabled | src/Handshake/PostHandshakeAuthManager.php:34-37 | sets the flag and keeps the request state |
| PostHandshakeAuthManagers.PostHandshakeAuthManager.RequestClientCertificate | src/Handshake/PostHandshakeAuthManager.php:52-57 | marks a request as outstanding, whether or not the feature is enabled |
| PostHandshakeAuthManagers.PostHandshakeAuthManager.ResetCertificateRequest | src/Handshake/PostHandshakeAuthManager.php:62-67 | clears the request and keeps the flag |
| PostHandshakeAuthManagers.PostHandshakeAuthManager.CreatePostHandshakeAuthExtension | src/Handshake/PostHandshakeAuthManager.php:84-87 | the client extension has an empty body that decodes back to it |
| PostHandshakeAuthManagers.PostHandshakeAuthManager.IsSupportedForVersion | src/Handshake/PostHandshakeAuthManager.php:96-100 | agrees with PostHandshakeAuthSupported |
| PostHandshakeAuthManagers.PostHandshakeAuthManager.ProcessClientPostHandshakeAuthExtension | src/Handshake/PostHandshakeAuthManager.php:109-115 | the feature is on, and accepted, exactly when the client sent the extension, whatever its earlier setting |
| PostHandshakeAuthManagers.PostHandshakeAuthExchange | src/Handshake/PostHandshakeAuthManager.php:52-115 | a client extension sent over the wire is accepted; a later ClientHello without it turns the feature off; a request is set and reset independently |
| HandshakeProtocols.HandshakeProtocolState.Value | src/Protocol/HandshakeProtocolState.php:23-38 | the states are backed by 0 to 3 |
| HandshakeProtocols.HandshakeProtocolState.Label | src/Protocol/HandshakeProtocolState.php:45-53 | every state has a non-empty label |
| HandshakeProtocols.ProtocolStateFromValue | src/Protocol/HandshakeProtocolState.php:23-38 | `tryFrom` finds a state exactly for 0 to 3, and it is the state backed by that value |
| HandshakeProtocols.ProtocolStateValuesInvert | src/Protocol/HandshakeProtocolState.php:23-38 | `tryFrom` inverts the value, so the four values are distinct |
| HandshakeProtocols.ProtocolStateValuesIncrease | src/Protocol/HandshakeProtocolState.php:23-38 | the values increase strictly in declaration order, and `tryFrom` finds nothing just outside 0 to 3 |
| HandshakeProtocols.AbstractHandshakeProtocol.constructor | src/Protocol/AbstractHandshakeProtocol.php:15-20 | a new protocol is NOT_STARTED with no version |
| HandshakeProtocols.AbstractHandshakeProtocol.StartHandshake | src/Protocol/AbstractHandshakeProtocol.php:22-25 | the protocol moves to IN_PROGRESS from any state and keeps its version |
| HandshakeProtocols.AbstractHandshakeProtocol.IsHandshakeCompleted | src/Protocol/AbstractHandshakeProtocol.php:32-35 | the handshake is completed exactly in the state backed by 2 |
| HandshakeProtocols.AbstractHandshakeProtocol.CompleteHandshake | src/Protocol/AbstractHandshakeProtocol.php:37-40 | the protocol moves to COMPLETED from any state and keeps its version |
| HandshakeProtocols.AbstractHandshakeProtocol.SetVersion | src/Protocol/AbstractHandshakeProtocol.php:47-50 | records the version and keeps the state, so a protocol that never failed still has not |
| HandshakeProtocols.ProtocolLifecycle | src/Protocol/AbstractHandshakeProtocol.php:22-50 | a protocol completes without having started, is no longer completed after a restart, never reaches FAILED, and keeps its version through both |

## Left out

- Handshake message types come from another package. The model has exactly the twelve message types the tables and the stage lists use, by identity only, and their numeric codes do not appear. That each message type is in exactly one stage's list (StageMessagesPartition, AcceptsMessageType) is proved for these twelve only. A message type outside them would be in no list.
- The exact label texts are not modelled, and neither is the `toArray`/`toSelectItem` rendering of the enumerations.
- HandshakeStates.HandshakeState.Label: states only that each label is non-empty, because the text is display-only.
- HandshakeStages.HandshakeStage.Label: states only that each label is non-empty, for the same reason.
- ExtensionTypes.ExtensionType.Label: states only that each label is non-empty, for the same reason.
- HandshakeProtocols.HandshakeProtocolState.Label: states only that each label is non-empty, for the same reason.
- Getters are modelled as direct reads of the fields: `getCurrentState`, `isClientCertificateRequired`, `isEarlyDataEnabled`, `getRenegotiatedConnection`, the verify-data getters, `isEnabled`, `isRequestingCertificate`, `getState` and `getVersion`.
- Chained `return $this` results are not modelled, because each such method returns the object it was called on.
- Thrown exceptions are modelled as the `Fail`/`Err` values of `Outcome`/`Result`. Their message texts are not modelled.
- RenegotiationManagers.RenegotiationManager.IncrementRenegotiationCount: the count is unbounded; PHP's conversion of an overflowing integer to float is not modelled.
- RENEGOTIATION_INFO carries 0x00FF, as the code and its own unit test have it. Section 3.2 of RFC 5746 assigns 0xFF01 to renegotiation_info (0x00FF is the value of the TLS_EMPTY_RENEGOTIATION_INFO_SCSV cipher suite). The model keeps the code's value.
- The TLS 1.3 server's `clientCertificateRequired` flag does not change its table. The WAIT_CLIENT_CERTIFICATE and WAIT_CLIENT_VERIFY rows are reachable only by a direct `transitionTo`, as `Tls13ServerClientCertificateRowsUnreached` states.
- The TLS 1.3 client's `earlyDataEnabled` flag is stored only, as in the source.
- The concrete `HandshakeProtocol` class is not modelled, and neither are the interfaces. `HandshakeProtocol` only extends the abstract base class.
- The constants class `HandshakeState.php` is not modelled. It duplicates the enumeration as strings.
- The early-data manager and the PSK session class of the session layer are not part of this model.
- The `DecodeResult` class is modelled as a datatype with the value and the new offset.

## Findings

| source | as written | input that shows it | evidently intended | confidence | as-written member | corrected member |
|---|---|---|---|---|---|---|
| src/StateMachine/TLS13ClientStateMachine.php:136-142 | `handlePSKRejection` clears the PSK flag only. The EncryptedExtensions entry that `setPSKMode(true)` wrote at line 87 still leads to WAIT_FINISHED. | `setPSKMode(true)`, a move to WAIT_ENCRYPTED_EXTENSIONS, then `handlePSKRejection`. After that, EncryptedExtensions leads to WAIT_FINISHED, and the full handshake's Certificate leads to ERROR. | A rejection falls back to the full handshake (line 138), so the entry should be rewritten to WAIT_CERTIFICATE, as `setPSKMode(false)` does. | not executed; medium | Tls13ClientMachine.Tls13ClientPskRejectionAsWritten | Tls13ClientMachine.TLS13ClientStateMachine.HandlePSKRejectionRestoringRoute |
| src/Handshake/RenegotiationManager.php:192-195 | `createRenegotiationInfoExtension`, documented for the ClientHello, always carries the empty value. During a renegotiation, `processClientRenegotiationExtension` (lines 221-235) wants the client's verify data. | Secure renegotiation on, client verify data [1] stored, and the renegotiation started. The created extension carries [] and the client check refuses it. | During a secure renegotiation the client's extension carries its previous verify data (section 3.5 of RFC 5746). | not executed; low | RenegotiationManagers.SecureRenegotiationExchange | RenegotiationManagers.RenegotiationManager.CreateClientRenegotiationInfoExtension |
