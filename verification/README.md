# A verified model of the KAS API client

This project models the client library for the KAS SOAP API, its in-process fake server and the
stateful parts of its command line tool, and proves what they promise. `dafny verify dfyconfig.toml` checks
everything.

## What is modelled

**The session, flood and retry protocol.** `Caller` is one call of `Exec`, `Logout` or `UpdateOwnPassword` as a
program of small steps on the state all callers share: the slot, the token and its expiry, the flood window, the
stored password. `CallerLaws` is what holds of every caller whatever happens between its steps. `Turns` puts any
number of callers in one transition system, with a clock that only advances, a server that answers as it likes, lost
answers and late servers; a run is a sequence of states. On runs are proved: mutual exclusion and the laws of a call
(`Safety`), flood safety (`Flood`), at-most-once (`Effects`), the life of a token and the number of handshakes
(`Sessions`), how long a session is used without a new one, bounded work and progress (`Progress`), the session
margin against a server that ends sessions (`SessionMargin`), which password handshakes carry (`Passwords`), what
every call returns by the last it heard (`Results`) and when `UpdateOwnPassword` stores its password
(`OwnPassword`). `Client` is the client as a class with the fields and methods of the library; every method is
proved to take exactly the steps of `Caller`, while the other callers change the shared state as they like whenever
this one waits outside. `Projection` shows that every call of every run of `Turns` is of just that form.

**The decoder.** `XmlParser` is the stack loop of the parser on heap nodes, proved to build the tree that
`XmlTree` defines; `NodeDecoder` is the search and the conversion on the heap, proved against `XmlTree` and
`Decoder`; `Soap` is what one SOAP response amounts to. `Printer` is the notation a server answers in, and decoding
is proved to undo it.

**End to end.** `FakeServer` is the fake server: its documents, its answers and its counters. `EndToEnd` runs one
call and the server together and proves that `Exec` returns what the handler says. `Interleaved` proves the same of
every `Exec` in every interleaving of any number of callers.

**Smaller parts.** `ListCodec` (separated lists), `Responder` (autoresponder windows and decimal integers),
`MailFilters` (the filter parameter), `Redaction` (secrets in responses), `ContextStore` and `ContextCommands` (the
configuration file and the commands that change it). `Text` is the part of Go's strings package they use, `Values`
the generic values a response decodes to.

## Assumptions

- Times are nanoseconds. The clock is monotone and timers never fire early. Flood delays are finite.
- The OTP callback does not re-enter the client, and its errors carry no fault code.
- The digest of a password (`digest`) and the parsing of a decimal fraction (`parseFloat`) are arbitrary functions;
  `EndToEnd.SamePassword` assumes that the digest is injective.
- `SessionMargin` assumes of the server that it keeps a session for the lifetime its handshake asked for and, once it
  is used, for one lifetime from then, and ends it earlier only by a Logout (`HonestServer`), of the network that the
  time an answer takes to arrive and the time from the check of the session to the arrival of the request together
  stay within the margin (`Timely`), and that a Logout its caller has given up on ends no session the client holds
  again (`LogoutInTime`). It assumes nothing about requests their callers have given up on. Elsewhere the server is
  unconstrained.
- What an XML parser reads where the fake server writes text unescaped (the action, the token, the flood delay, the
  fault code and the fragment a handler answers) is an arbitrary function from text to content (`Setup.raw`). Lemmas
  about text without markup assume that it is read as it is (`FakeServer.ReadsAsIs`); the end-to-end theorems assume
  that of the token alone, which is also trimmed (`FakeServer.PlainToken`).
- `Interleaved` assumes that the server gives the fake server's answers and that nothing fails (`Faithful`).

## Where the code differs from what one might expect

- A responder that is switched off is written as `N`, so its dates do not come back (`Responder.WindowKept`).
- A struct field that occurs several times becomes a list, unless its first value is itself a list: then the later
  values are appended to that list (`Decoder.StructRepeats`).
- An empty list or map arrives as the empty string, and strings and keys arrive trimmed
  (`Printer.RoundTrip` gives the exact condition).
- A list directly under a secret key is not redacted, only strings are (`Redaction.RedactAt`).
- The fake server echoes the action unescaped, so an action that brings a `Fault` element into the response is taken
  for a fault of the API whatever the handler answers (`FakeServer.ActionTakenForFault`); the same goes for the flood
  delay and the handler's own fragment. `FakeServer.SeenValue` gives the exact condition, and the end-to-end theorems
  count such a fault as the answer (`FakeServer.See`).
- `nothing_to_do` counts as success of an update even when it is the answer to the handshake, so that
  `UpdateOwnPassword` can store a password nobody has asked for (`OwnPassword.NothingToDoStores`).
  `OwnPassword.AskedUnlessHandshake` gives the exact condition.
- Deleting a context whose name occurs twice leaves the second one (`ContextStore.Config.Delete`).

## Model

| member | source | states |
|---|---|---|
| Caller.NormalLifetime | client.go:124-129 | New keeps a lifetime between 1 and 30000 seconds, takes 1800 for none and 30000 for more |
| Caller.MarginIsMinimum | auth.go:98-105 | for every such lifetime a session is trusted for its lifetime less the smaller of one minute and half of it, and that is some time |
| CallerLaws.StepForward | client.go:226-278 | every step that is not waiting brings a call nearer to its end, by a measure on the retries left and the place in the call |
| CallerLaws.StepLaws | client.go:226-346 | every step of every caller, in any shared state, keeps the bounds on attempts and requests, the order of events and the ties between the last event and the place in the call |
| CallerLaws.CallBounds | client.go:252-278 | a lawful call has made at most five attempts and sent at most ten requests, a Logout one attempt and two requests |
| CallerLaws.FinalEnds | client.go:235-247 | nothing follows a final answer: any KasAuth fault but flood protection, even with a session code, and any KasApi answer but a session or flood fault |
| CallerLaws.RequestsBeforeLast | client.go:235-247 | a request is followed at once by its answer, and a KasApi request that is not the last one by a session or flood fault |
| CallerLaws.GrantFollowsFault | client.go:260-278 | the k-th flood retry follows at once on a flood fault |
| Turns.StepSlot | client.go:206-218 | only a caller inside changes the session state or does anything noticeable; one enters only when the slot is free and frees it when it leaves, and one that is turned away does nothing |
| Turns.OneHolderApply | client.go:206-218 | every tick keeps exactly one caller inside when the slot is taken, and none when it is free |
| Safety.MutualExclusion | client.go:205-233 | in every run at most one caller is inside, no two callers wait for an answer, the slot is taken exactly when somebody is inside, and only that caller changes the session state or sends |
| Safety.FailedLockIsSilent | client.go:206-216 | a call that does not get the slot has sent nothing and changed nothing |
| Safety.FloodSafety | flood.go:15-47 | in every run, whoever calls: after a KasApi response that is a map no request starts before the delay it announces, in whole milliseconds, is over, and after the k-th flood retry none for 2k seconds; every request starts at or after the notBefore in force, which never moves back |
| Safety.RunLogIsHistory | client.go:226-248 | the log of a run holds exactly the events of every caller, in order |
| Safety.BackoffAfterFault | client.go:267-275 | after the k-th flood retry a call sends nothing for at least 2k seconds after the fault it answers |
| Safety.EveryCall | client.go:226-278 | in every run every call makes at most five attempts and ten requests, a Logout one attempt and two requests, every KasApi request but the last got a session or flood fault, and nothing follows a final answer |
| Progress.BoundedWork | client.go:226-278 | in every run of n callers at most 104 n ticks move a caller, whatever the server answers |
| Progress.SomebodyCanMove | client.go:205-218 | in every state of every run in which a call is not over, some caller can take a step at any time from some time on |
| Flood.StepWindow | flood.go:15-47 | one step never moves the window back, sends only when it has passed, and moves it by the delay of a response or by 2k seconds for the k-th flood retry |
| Flood.DelayIsAnnounced | flood.go:33-47 | a response is waited for as long as its Response says, else as it says itself, else two seconds, cut to whole milliseconds |
| Flood.WindowMoves | flood.go:15-28 | nothing but a response that is a map and a flood retry moves the window, each by exactly its delay, and a caller at the window goes on exactly when it has passed |
| Flood.WindowKeptApply | flood.go:15-28 | a tick of any caller keeps every earlier delay covered by the window, and sends only after all of them |
| Flood.RunSafe | flood.go:15-47 | the invariant behind flood safety holds in every state of every run |
| Effects.StepPhase | client.go:327-342 | a call sends only before its last answer, and leaves a KasApi answer for another attempt only if it was a fault |
| Effects.RequestsAskForTheCall | client.go:316-322 | in every run every KasApi request of a call asks for the action of the call with its parameters and for nothing else |
| Effects.HandshakesAskForTheLifetime | auth.go:48-65 | in every run every handshake asks for the lifetime the client counts on and says how the password is sent, and has a PIN exactly if there is a callback for one |
| Effects.AtMostOnce | client.go:235-247 | in every run in which faults apply nothing, every call applies its action at most once, whatever is lost, late or malformed |
| Sessions.StepToken | auth.go:37-93 | one step gets a token only by a handshake, sends a KasApi request only with the current token, and a Logout that gives the slot back has left none |
| Sessions.NoTokenNoRequest | auth.go:37-40 | without a token and without a new handshake no caller sends a KasApi request |
| Sessions.LogoutEndsSession | auth.go:124-143 | a Logout that had the slot leaves no token for every server answer, and any later KasApi request comes after a new successful handshake |
| Sessions.AtMostTwoHandshakes | auth.go:37-93 | in every run a call none of whose tokens passes its trusted expiry makes at most one successful handshake, and one more if the API rejected a session |
| Sessions.StepTrust | auth.go:37-105 | one step moves the end of the trust in a session only by storing or extending it, and then to the lifetime less one minute, or half of a lifetime of at most two minutes, from now |
| Sessions.SessionReused | auth.go:37-40 | in every run an attempt goes on without a handshake exactly while there is a token and the trust that began when the session was last stored or used, by any caller, has not ended |
| SessionMargin.HolderHand | auth.go:86-93 | a step of the caller inside keeps the client's trust in the token within what the server promised for it |
| SessionMargin.RunKeepsMargin | auth.go:91-105 | in every state of such a run the client trusts its token no longer than the server keeps the session less the time an answer takes, and every request on its way has a session that lasts |
| SessionMargin.RequestsInTime | auth.go:95-105 | against a server that ends sessions on Logout the same holds of every request that was not on its way when a Logout ended its session |
| SessionMargin.AllInTime | auth.go:95-105 | in every run against a server that keeps a session for the lifetime its handshake asked for: if no session is ended early and travel and waiting stay within the margin, every KasApi request reaches the server before its session ends, also one its caller has given up on |
| Passwords.StepPassword | auth.go:107-112 | one step changes the stored password only in setPassword, and a handshake carries the one that is stored |
| Passwords.PasswordStays | auth.go:107-112 | the stored password changes only when a call stores one |
| Passwords.HandshakesCarryNewest | account.go:516-526 | if UpdateOwnPassword calls do not overlap, every handshake from the return of a successful one until the next store carries the new password |
| Results.TokenIsRead | auth.go:81-89 | the token is the Response of a KasAuth answer if that is a text that is not empty, else the answer itself if it is a text, and else there is none |
| Results.RetryCodes | client.go:289-303 | flood protection is tried again, and the three session codes unless they answer a handshake; every other fault and error is final |
| Results.RetriesGranted | client.go:260-278 | a session the API rejected is given up and renewed once, flood protection waited for 2k seconds the k-th of three times; every other error, and every one after that, is returned |
| Results.EndsUnanswered | flood.go:23-27 | a call whose context ends while it waits ends with that error, silently and with nothing changed, and a request that does not get off or a PIN that is missing gives an error of its own |
| Results.StepExplained | client.go:305-346 | one step keeps the result and the place of a call explained by the last it heard |
| Results.ExecReturns | client.go:327-346 | in every run a finished Exec succeeded exactly when the last it heard is a KasApi response with ReturnString TRUE, and then returned its ReturnInfo; a fault gives the error of its code, any other response and everything else an error without a code |
| Results.UpdateReturns | params.go:115-124 | in every run a finished UpdateOwnPassword succeeded exactly when the last it heard is such a response or the fault nothing_to_do, and otherwise returned the error of what it heard |
| Results.LogoutReturns | auth.go:124-143 | in every run a finished Logout that had the slot succeeded exactly if it found no trusted session, or the last it heard is such a response or a fault with one of four codes; otherwise it returned the error of that answer, and one that never had the slot the error of its context |
| OwnPassword.StoresExactlyWhenConfirmed | params.go:115-124 | in every run a finished UpdateOwnPassword has stored its password, and returned success, exactly when the last it heard is a KasApi response in order or nothing_to_do |
| OwnPassword.AskedUnlessHandshake | params.go:80-84 | a successful call has had a request for the new password confirmed exactly if no handshake of it was answered nothing_to_do; otherwise every KasApi request of it was refused with a session or flood fault |
| OwnPassword.NothingToDoStores | account.go:516-526 | without a session and with a handshake answered nothing_to_do the new password is stored and success returned, although only the handshake was sent |
| Projection.CallIsReplay | client.go:205-248 | in every interleaving the call of every caller is a run of its own program, in which the others change the shared state only while it is outside |
| Projection.TurnIsReplay | client.go:226-248 | between taking and freeing the slot a call runs as if alone from the shared state it found |
| Client.ReplayLawful | client.go:226-248 | a run of one caller keeps every law, whatever the others do in between |
| Client.Client.constructor | client.go:149-149 | a new client has a free slot, no token and an open flood window |
| Client.Client.WaitForFloodWindow | flood.go:15-28 | returns past the window only when it has passed, or with the error of the context |
| Client.Client.ApplyFloodDelay | flood.go:33-47 | a map moves the window by the delay it announces, in whole milliseconds; anything else leaves it |
| Client.Client.EnsureSession | auth.go:37-93 | keeps a token that is still trusted, or takes exactly the steps of a handshake, PIN and flood window included |
| Client.Client.Handshake | auth.go:75-93 | sends one KasAuth request with the password or its digest, the PIN and the configured lifetime, unless it does not get off, and goes on with the answer as the program does |
| Client.Client.UseToken | auth.go:81-93 | stores the token of the answer and trusts it for the lifetime less the margin, or reports that there is none |
| Client.Client.ExecLocked | client.go:305-346 | one attempt does exactly the steps of the program and returns its result |
| Client.Client.UseAnswer | client.go:327-346 | applies the flood delay, checks the response and extends the session as the program does |
| Client.Client.CheckAnswer | client.go:327-342 | applies the flood delay, and returns the ReturnInfo of a response with ReturnString TRUE and an error without a code for any other |
| Client.Client.Extend | client.go:343-345 | a response in order extends the session by the trusted lifetime |
| Client.Client.Again | client.go:260-278 | grants one session retry and three flood retries and prepares them, or ends the call |
| Client.Client.Lock | client.go:206-216 | waits for the slot while the others do what they like and takes it when it is free, or returns the error of the context |
| Client.Client.Unlock | client.go:218-218 | frees the slot |
| Client.Client.Attempts | client.go:235-247 | the retry loop ends within the retries there are and returns the result of the program |
| Client.Client.Exec | client.go:226-248 | whoever has the slot when it starts, a finished Exec has the result, the state and the requests, at most ten, of the program on the same clock readings, answers, context ends and doings of the others, and has freed the slot if it had it |
| Client.Client.EndSession | auth.go:129-142 | a Logout inside leaves no token |
| Client.Client.DropToken | auth.go:133-142 | drops the token and returns success, or the error of execLocked unless its code is one of the four that say the session is gone |
| Client.Client.Logout | auth.go:124-143 | a Logout that had the slot leaves no token and returns success exactly without a session, after a response in order or after a fault that says the session is gone, and otherwise the error of the last answer; one that did not returns the error of its context |
| Client.Client.SetPassword | auth.go:107-112 | waits for a turn of its own, whatever becomes of the context, and stores the password |
| Client.Client.UpdateOwnPassword | account.go:516-526 | a finished call is such a run; on success the new password is stored, otherwise the one it found when it had the slot remains |
| XmlTree.ContentOnStack | soap.go:97-128 | the tokens of any content add exactly its direct text and its child trees to the open element |
| XmlTree.ParseRebuilds | soap.go:97-128 | the tokens of any document leave only the root open and rebuild the tree of the document (section 3.1 of XML 1.0) |
| XmlTree.FindIsFirst | soap.go:130-141 | find returns the first match of the preorder walk |
| XmlTree.FindAbsent | soap.go:130-141 | find returns nothing exactly when no descendant has the name |
| XmlParser.ParseXMLTree | soap.go:97-128 | for every token sequence the loop builds fresh nodes, none shared or cyclic, that form exactly the tree of the stack machine; a decoder error gives no tree |
| XmlParser.StartTag | soap.go:112-116 | a start tag adds a new last child and opens it |
| XmlParser.EndTag | soap.go:117-120 | an end tag closes the open element and finishes its tree |
| XmlParser.Characters | soap.go:121-123 | character data is appended to the open element |
| NodeDecoder.Find | soap.go:131-141 | the search on the heap finds the node the tree search finds |
| NodeDecoder.ChildTextOf | soap.go:143-150 | the text of the first direct child of a name |
| NodeDecoder.IsKeyValueMap | soap.go:219-238 | the loop decides the map shape of the tree |
| NodeDecoder.AllNamed | soap.go:240-250 | the loop decides the list shape of the tree |
| NodeDecoder.ToValue | soap.go:155-165 | conversion on the heap gives the value of the tree |
| NodeDecoder.MapValue | soap.go:168-184 | the loop over map items gives the map of the tree |
| NodeDecoder.ListValue | soap.go:187-193 | the loop over list items gives the list of the tree |
| NodeDecoder.StructValue | soap.go:197-212 | the loop over struct children gives the struct of the tree |
| Decoder.StructCollects | soap.go:195-217 | a struct has exactly the names of its children; a name that occurs once has its value, otherwise its values collected in order |
| Decoder.StructRepeats | soap.go:195-217 | a repeated name maps to the ordered list of all its values exactly when the first of them is not a list |
| Decoder.ScalarValue | soap.go:155-165 | an element is a text exactly if it has no children, its own text, trimmed |
| Decoder.StructIsMap | soap.go:155-212 | an element with a child not called item is a map with exactly the names of its children, each mapped to its collected values |
| Decoder.ItemsAreList | soap.go:187-193 | an element of items, one of them without a key, is the list of their values, in order |
| Decoder.EntriesAreMap | soap.go:168-184 | an element of items with keys is a map with exactly those keys, each mapped to the value of the last item with it |
| Decoder.KeyIsLast | soap.go:171-180 | the key of an item is the trimmed text of its last key |
| Decoder.ValueIsLast | soap.go:171-180 | the value of an item is that of its last value |
| Decoder.ToValueDecodable | soap.go:152-165 | a decoded value holds no nil at any depth |
| Soap.SoapCall | soap.go:62-84 | parsing, the search for a fault, the status and the decoding, on the heap, give the reply of the tree |
| Soap.ClassifyCases | soap.go:69-84 | a response is a fault exactly if it holds one anywhere, and a value exactly if it holds none, its status is 200 and it has a return element |
| Printer.DecodePrinted | soap.go:152-193 | decoding what was printed gives the document with strings and keys trimmed and empty lists and maps as empty strings, for every document |
| Printer.PrintedList | soap.go:219-238 | a printed list is never taken for a map |
| Printer.PrintedMap | soap.go:219-238 | a printed map is never taken for a list |
| Printer.RoundTrip | kasapitest/server.go:119-131 | a printed value is decoded to itself exactly when its strings and keys are trimmed and no list or map in it is empty |
| Printer.Printable | kasapitest/server.go:187-190 | every value without nil has a printed form |
| Printer.PrintedNames | kasapitest/server.go:187-190 | printed content holds no element but item, key and value |
| FakeServer.ReplyIsParsed | soap.go:62-84 | what soapCall makes of a document is what it makes of the tokens of the document |
| FakeServer.FindInDocument | kasapitest/server.go:165-185 | searching an envelope is searching what is in its body |
| FakeServer.FindInReturn | kasapitest/server.go:104-117 | the frame and the echoed parameters hold no element of their own: a search finds what is in the echoed action, the flood delay or the handler's fragment |
| FakeServer.ReturnValue | kasapitest/server.go:104-117 | a response decodes to a map of Request, with the action and the parameters, and Response, with the decoded flood delay, TRUE and the decoded fragment of the handler, and of nothing else |
| FakeServer.FaultReply | kasapitest/server.go:175-185 | the client reads the trimmed code of a fault, or the fault class if it is blank |
| FakeServer.Statuses | kasapitest/server.go:83-93 | faults come with status 500 and exactly the requests with matching credentials and no fault with 200 |
| FakeServer.EchoDecoded | kasapitest/server.go:119-131 | a client decodes the echo of parameters with trimmed keys to every parameter under its key, as it is printed, trimmed |
| FakeServer.AuthReply | kasapitest/server.go:141-163 | the client gets the token as it is read, or the fault for a password that is wrong for the way it is sent or for a wrong PIN |
| FakeServer.PlainTokenIssued | kasapitest/server.go:162-162 | a token without markup arrives as it is exactly if it is trimmed |
| FakeServer.SeenValue | kasapitest/server.go:98-117 | the client sees a value exactly if the handler answers one and neither its fragment nor the echoed action nor the flood delay brings a Fault element into the response |
| FakeServer.ActionTakenForFault | kasapitest/server.go:107-107 | an action that is a Fault element is answered with a fault without a code, whatever value the handler gives |
| FakeServer.PlainTextIsHarmless | kasapitest/server.go:105-113 | an action and a flood delay without markup bring no Fault element |
| FakeServer.ApiReply | kasapitest/server.go:88-117 | with the server's token the client gets what it sees of the handler's answer and waits for the server's flood delay, two seconds if that is no positive number, whatever parameters are echoed; otherwise session_expired |
| FakeServer.BadRequestReply | kasapitest/server.go:71-81 | a body without a request is answered with status 400 and an error that is no fault |
| FakeServer.SortsUnique | kasapitest/server.go:125-125 | some keys have only one ascending order |
| FakeServer.Server.KeysInOrder | kasapitest/server.go:121-125 | the keys of the parameters, each once, in ascending order |
| FakeServer.Server.ParamItems | kasapitest/server.go:120-131 | the loop prints every parameter once, in ascending order of the keys |
| FakeServer.Server.Serve | kasapitest/server.go:69-117 | every request is counted once and answered as the documents say, a body without one not at all; the handler is asked with the action and the parameters of the request, exactly for KasApi requests with the server's token, and a rejected handshake leaves the lifetime alone |
| EndToEnd.OnTrack | client.go:226-346 | in every state of a joined run from the third step on, what is still to come is what the handler's next answers to the action and parameters of the call decide |
| EndToEnd.ExecIsTheHandler | client.go:226-248 | with matching credentials a finished Exec has returned the handler's first answer to its action and parameters that is not tried again, as its value or its fault; the handler was called for that answer and the at most four before it and never after |
| EndToEnd.FirstRealAnswer | client.go:226-278 | Exec returns the handler's first answer to its action and parameters that is neither a session nor a flood fault exactly when at most one session fault, a stale token included, and at most three flood faults precede it |
| EndToEnd.PrintedAnswer | kasapitest/server.go:27-29 | a printed value answered by the handler is seen as a value exactly if action and flood delay bring no Fault element, and then as that very value exactly when it is clean |
| EndToEnd.SamePassword | kasapitest/server.go:144-149 | with the same injective digest on both sides a password is accepted exactly if it is the server's, plain or as SHA-1 |
| EndToEnd.Finishes | client.go:226-248 | whenever an Exec starts, there are times at which it finishes |
| EndToEnd.EveryScheduleFinishes | client.go:226-278 | every schedule finishes an Exec that takes a hundred and four steps at an open flood window |
| EndToEnd.JoinedIsReplay | client.go:226-346 | a joined run is the client's program on the answers of the server |
| EndToEnd.WrongCredentials | auth.go:75-79 | without a session it trusts, an Exec with a wrong password or PIN ends in the login fault and the handler is never called |
| Interleaved.RunKept | client.go:205-248 | in every faithful run, whoever else calls, requests on their way are waited for, answers under way are the server's and every token is the server's |
| Interleaved.TurnIsJoined | client.go:226-248 | a turn of an Exec in any interleaving is a joined run against the handler from the call of it that comes next |
| Interleaved.TurnIsTheHandler | client.go:226-248 | an Exec whose credentials match when it takes the slot leaves it with the handler's first answer to its own action and parameters, counted from then, that is not tried again, and all calls of the handler in between are its own |
| Interleaved.EveryExecIsTheHandler | client.go:226-248 | every finished Exec of every interleaving had one such turn and has returned what the client sees of the handler's answer to its own action and parameters |
| ListCodec.SplitList | params.go:149-162 | the trimmed non-empty entries between commas and semicolons, in order |
| ListCodec.SplitLines | mailinglist.go:174-183 | the trimmed non-empty lines, in order |
| ListCodec.EntriesAreClean | params.go:149-162 | every list that is read has trimmed, non-empty entries without separators |
| ListCodec.ReadWritten | params.go:144-162 | writing a list and reading it back returns it exactly when every entry is non-empty, trimmed and free of separators |
| ListCodec.ReadNormalises | mailinglist.go:133-145 | reading, writing and reading again is reading once, for every text |
| ListCodec.KeysReadBack | account.go:439-446 | the SSH keys UpdateSSH accepts come back trimmed and without blank ones, and unchanged exactly when all are trimmed |
| ListCodec.SplitsAtBoth | params.go:149-162 | a list is read as the entries on both sides of any comma or semicolon |
| ListCodec.SplitsNowhereElse | params.go:149-162 | a text without them is one trimmed entry, or none if it is blank |
| Responder.NatRoundTrip | mail.go:90-90 | the decimal digits of a number denote it |
| Responder.IntRoundTrip | mail.go:124-127 | parsing undoes formatting on every 64-bit integer and on no other |
| Responder.SignedDigits | mail.go:124-127 | digits with a sign or without are read as their number, up to the limits of 64 bits |
| Responder.Canonical | mail.go:90-90 | a number is written in the one way without a leading zero |
| Responder.ReadWritten | mail.go:84-135 | a valid responder is read back with its flag, and with its window in Unix seconds when it is active, before 1970 included |
| Responder.WindowKept | mail.go:84-135 | the window comes back exactly when the responder is active or has no dates |
| Responder.ValueInjective | mail.go:84-93 | two valid active responders are written alike exactly when their windows agree |
| Responder.InvalidExactly | mail.go:96-116 | exactly when a responder is turned down: active, and with a blank text, one date without the other, an end not after its start or an unknown content type |
| Responder.FlagWords | params.go:20-27 | without a window it is on exactly for Y, J, 1 and TRUE, in capitals or not |
| Responder.WindowRead | mail.go:124-132 | a window is on exactly if both of its halves are integers, and those are its start and its end |
| MailFilters.FilterParameter | mail.go:490-507 | accepts exactly the non-empty lists of valid filters, and joins their text in order |
| MailFilters.ParameterRoundTrip | cmd/kascli/write.go:763-766 | splitting the parameter at ";" and each part at its first ":" gives back the names and actions in order |
| MailFilters.ParameterInjective | mail.go:437-469 | different lists of valid filters never share a parameter |
| MailFilters.AcceptedActions | mail.go:444-469 | no action, delete, mark, move to a folder and forward to an address are accepted |
| MailFilters.AcceptedOnly | mail.go:444-469 | nothing else is accepted, nor an empty name or a separator in it |
| Redaction.RedactSecrets | cmd/kascli/commands.go:281-301 | filling a fresh map or list entry by entry gives the redacted value |
| Redaction.SecretKeys | cmd/kascli/commands.go:274-278 | every key ending in _password is secret but show_password, and of the others only ssl_certificate_sni_key |
| Redaction.RedactAt | cmd/kascli/commands.go:274-301 | at every path the shape stays, and a string is replaced exactly when it is not empty and directly under a secret key |
| Redaction.RedactIdempotent | cmd/kascli/commands.go:281-301 | a second pass changes nothing |
| Redaction.RedactFixpoint | cmd/kascli/commands.go:281-301 | a value is unchanged exactly when every string under a secret key at any depth is empty or REDACTED |
| ContextStore.Config.Load | internal/kasconfig/kasconfig.go:72-98 | the contexts of the file, in an order of their names |
| ContextStore.Config.Save | internal/kasconfig/kasconfig.go:119-131 | every context is written as it is, in order |
| ContextStore.Config.Get | internal/kasconfig/kasconfig.go:192-199 | a lookup in the map of the list |
| ContextStore.Config.Set | internal/kasconfig/kasconfig.go:202-211 | replaces the first context of the name in place, or adds the context and sorts |
| ContextStore.Config.Delete | internal/kasconfig/kasconfig.go:214-225 | removes the first context of the name and clears the current context with it; the name is gone exactly when it occurred once; otherwise an error and nothing changes |
| ContextStore.Sort | internal/kasconfig/kasconfig.go:96-96 | the same contexts, in an order of their names |
| ContextStore.SortedIsUnique | internal/kasconfig/kasconfig.go:210-210 | distinct names have one sorted order, so nothing depends on how the sort treats equals, and a sorted list that is saved is loaded as it was |
| ContextStore.SetUpdates | internal/kasconfig/kasconfig.go:202-211 | on distinct names Set is a map update and keeps the list sorted and free of duplicates |
| ContextStore.DeleteRemoves | internal/kasconfig/kasconfig.go:214-225 | on distinct names Delete is a map removal and keeps the list sorted and free of duplicates |
| ContextStore.RunRefinesMap | internal/kasconfig/kasconfig.go:202-225 | from a sorted list without duplicates every run of Set and Delete is a run on the map and keeps the list sorted and free of duplicates |
| ContextStore.WithoutMap | internal/kasconfig/kasconfig.go:214-225 | on every list Delete keeps all other names, and takes the name out exactly when it occurs at most once |
| ContextStore.ReplacedMap | internal/kasconfig/kasconfig.go:202-208 | on every list replacing in place is a map update |
| ContextStore.PermutedMap | internal/kasconfig/kasconfig.go:96-96 | a list of distinct names stands for the same map in every order |
| ContextStore.FieldsKept | internal/kasconfig/kasconfig.go:93-127 | every field of a context has its place in the file and is read from there |
| ContextCommands.ReadPassword | cmd/kascli/config.go:157-171 | the password given by flag or by the first line of the input, and exactly when that is an error |
| ContextCommands.Apply | cmd/kascli/config.go:130-154 | changes exactly the given fields of a context, or reports the first problem with the flags |
| ContextCommands.PasswordFromInput | cmd/kascli/config.go:166-170 | a password from the input is its first line without the line end |
| ContextCommands.RefusedExactly | cmd/kascli/config.go:130-165 | exactly which flags are refused: an unknown auth type, two passwords, no input, or no login at all |
| ContextCommands.FlagsWin | cmd/kascli/config.go:130-154 | a flag that is given wins over what is stored, and what is not given stays |
| ContextCommands.Tool.Use | cmd/kascli/config.go:105-119 | use-context on the file is the operation on the map, keeps the current context empty or stored, and leaves the file alone when it fails |
| ContextCommands.Tool.Set | cmd/kascli/config.go:179-208 | the same for set-context, created or updated contexts and the switch of the current one included |
| ContextCommands.Tool.Delete | cmd/kascli/config.go:224-236 | the same for delete-context |
| ContextCommands.Tool.Run | cmd/kascli/config.go:100-238 | every run of the three commands is the run on the map, keeps a sorted list sorted, and keeps the current context empty or stored even when names occur twice |
| ContextCommands.NamedCommands | cmd/kascli/config.go:105-236 | use-context and delete-context fail exactly for a name that is not stored; one switches to the name and changes nothing else, the other takes it away and clears the current context with it |
| ContextCommands.SetCommand | cmd/kascli/config.go:179-208 | set-context stores the context with the flags applied, leaves all others alone, and switches to it when told to or when there is no current context |
| ContextCommands.RunKeepsContexts | cmd/kascli/config.go:130-154 | in every run every context stays under its own name with a login and a known auth type |

## Left out

- HTTP, TLS, proxies, endpoint checks, the size limit, JSON and the SOAP envelope of requests: a request is a record,
  and every failure before it leaves or on its way back is one kind of error.
- Lexing of XML (entities, attributes, namespaces): the parser starts from tokens with local names. Text the fake server
  writes unescaped is covered as far as it is content of its own; text whose markup is not balanced, so that the
  document is malformed or nests otherwise, is not.
- SHA-1 and the text of errors.
- The mapping of fault codes to ErrNotFound, empty_list and the created identifier in params.go, and the
  per-resource services: case distinctions on one result, and copying of fields.
- Floating point: a delay is a real number; NaN, infinite or overflowing delays and the printing of numbers.
- UpdateOwnPassword calls that overlap: the update and the local store are two turns, so nothing orders them.
- Client.World.Send: a request is a record; the SOAP envelope, the headers and the endpoint it is sent with are not
  modelled, nor are the login and the flag that asks for the extension of sessions on use.
- Client.Client.Exec: the fields are described at the moment the slot is given back, not at a later return.
- ContextCommands.Tool.Run: a run of commands on one file by one process; commands that overlap are not covered.
- YAML, file permissions, the temporary file and its rename, and the config views; a missing file is an empty file
  value.
- Prompts, flags parsing and printing of the command line tool; a read error on standard input other than its end.
- Certificate checks, address and network parsing; a mail address in a filter is an arbitrary predicate.
