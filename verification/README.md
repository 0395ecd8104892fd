# px-smt-multirealm-shim: the rewrite protocol, the LUN cleaner and the stress oracle in Dafny

The shim lets several Portworx realms share one FlashArray. px creates realm hosts `<realm>::<node>-<suffix>`
that own nothing; the real initiators belong to pre-provisioned array-level hosts. The shim re-issues px's
connection calls on those array hosts under an array-admin session, grants each array host access into the realm
first, and rewrites answers so that px finds its own names in them. Beside the shim run a node agent, which
tears down multipath maps whose volume was detached, and a stress harness, which decides from its own notes whether a
volume lost data.

This project models these programs and proves what they are for.

* `GoStrings`, `QuotedText`: `strings.ReplaceAll` (leftmost, non-overlapping) and the one theory behind every text
  rewrite. A body is read as the pieces between its quote characters (section 7 of RFC 8259): replacing a quoted name
  acts on whole pieces, replacing a quote-free name acts inside pieces.
* `Fnv`, `ArrayIdentity`: the synthetic array name and id per FQDN. The id's tail is the low 48 bits of 64-bit FNV-1a
  (section 2 of draft-eastlake-fnv), studied as a 48-bit machine of its own.
* `Query`: the raw query of a forwarded request as URL text, the identity rewrite on that text, and what the array
  reads from it.
* `Config`, `Resolve`, `Hosts`: the host map, name resolution over a Go map in arbitrary order, and the `/hosts`
  rewrites over JSON values.
* `ArraySession`, `FlashArray`: the authenticated session against an array that may expire sessions at any moment and
  a network that may lose a request or its answer; and the array itself. Every message is on a trace, and how it ends is
  fixed by a network the shim cannot choose (`ArraySession.Net`). The array follows the in-memory array of
  `internal/proxy/fada_sequence_test.go`, extended with DELETE, real listings, unknown hosts and realms, and "already
  exists" answers.
* `Protocol`, `Learning`, `Rewriter`: one request as a function of everything the shim does not control, what the
  learned map holds after any run, and the shim itself as a class proved against those functions.
* `Refinement`, `EndToEnd`: shim and array together are a plain array on which px's realm hosts are ordinary hosts.
* `Messages`, `Leaks`: the words the shim looks for in error answers, and exactly when px gets to see an array host.
* `GrantRace`, `Linear`, `SessionRace`: any number of requests interleaved step by step: around the grant cache, over
  the whole way of a request up to px's answer, and in the session they share.
* `Multipath`, `Cleaner`, `Wakeup`: the `multipath -ll` parser, the streak state machine over whole histories of
  passes, and the capacity-one wakeup channel.
* `Stress`: one pool's lifecycle against a world whose answers the harness cannot choose (`Stress.World`): what is to do
  next at every point (`Stress.Job`), and an independent observer who judges the log of answers.

`dafny verify dfyconfig.toml` verifies all of it.

## What px may rely on, and what the array must be

The refinement holds for an unambiguous host map (`Resolve.Unambiguous`, which is exactly when map order never shows)
and for runs in which px uses one realm-host name per array host, or the double-prefixed form in GET /hosts. Names are
free of quotes, an array host's name is no JSON key of an answer, and volumes are not named like array hosts
(`Refinement.NamingOk`, `VolumeOk`, `CallOk`). Other hosts may have connections on the array as long as px uses no name
of theirs (`Refinement.Foreign`); they appear on the plain array too. With the array identity on, the text of the query
in which px lists a volume by name must not mention a synthetic value; `Refinement.VolumeListingExactly` shows that
this is exactly when such listings are right. No other tenant changes connections or revokes grants during a run. The array
answers 401 only to a dead session, and refuses a connection with status 400 and a message. That a repeated POST says
"already" and a repeated grant says "exist" are properties of the model array's messages
(`Messages.DuplicateSaysAlready`, `RepeatedGrantSaysExist`). `EndToEnd.OneNodeFits` shows a deployment that meets all of
this, with the identity on or off.

Under these conditions px gets the plain array's answer to every request, with one exception that the theorem names:
a refused POST that the shim takes for a duplicate (`Refinement.Misread`). This holds for requests one after the other
(`Refinement.RunRefines`) and for any number at once, each taking effect at one moment between its arrival and its
answer (`Linear.Linearizable`, `RealTime`).

## Where the code does not do what its documentation says

* "px only ever sees its own name" (internal/proxy/rewrite.go:307-311, internal/proxy/fada_sequence_test.go:141): when no
  other text mentions array hosts, px gets to see one if and only if it posts a connection to a volume of another realm,
  the POST reaches the array, and neither the array host nor that realm says "already" (`Leaks.MentionsExactly`, with
  `QuotedText.LeftoversExactly` behind it; `LeakWitness` is one such request). A volume listing shows the name learned
  last (`Learning.LaterNameWins`; `ListingExactly` gives the exact condition). A listing filtered by host shows every
  connection of the array host under the name px asks with, which is right if and only if each was made under that name
  (`HostListingExactly`, `OtherRealmShown`). Nothing is learned from the double-prefixed form (`DoublePrefixLeaks`).
* "the call is made at most once per host/realm" (internal/proxy/rewrite.go:281-282): calls made and still to be made
  are exactly as many as lookups that found the pair missing (`GrantRace.CallsAreMisses`), so there is at most one call
  if and only if at most one lookup misses (`OneCallExactly`). Two concurrent requests can both miss
  (`TwoCallsPossible`). One after the other, a request calls again if and only if no answer to an earlier call arrived,
  even when the array carried it out (`SequentialCallsExactly`). Once the pair is cached, no interleaving calls again if
  and only if no request is past its lookup (`SettledExactly`).
* "a 400 that mentions the grant already exists is equally fine" (internal/proxy/rewrite.go:280-281): the code looks for
  "exist", which "does not exist" contains too. The cache is truthful after a grant call exactly when host and realm
  exist (`GrantRace.CacheTruthfulExactly`), and for any array exactly when an accepted answer means the grant is held
  (`AcceptedMeansHeld`).
* A refused POST becomes a 200 if and only if the host's or the realm's name says "already"
  (`GrantRace.RefusalReadAsDuplicate`); these are exactly the requests px gets a wrong answer to
  (`Refinement.StepRefines`).
* The identity is mapped back anywhere in the query's text, not only where px names the array: a listing asks for the
  volume px named if and only if the escaped text mentions neither synthetic value (`Query.ForwardsExactly`). A match may
  begin inside an escape: `%3A` ends in the first letter of an array `Array01`, so a volume whose own name mentions
  nothing synthetic can be asked for under another name (`NameFromEscape`, `CleanVolumeRewritten`).
* "refreshed once on a 401" (internal/proxy/array.go:14-17): the retry goes out under whatever token is stored by then,
  which is the call's own new one if and only if no other call stored a token in between
  (`SessionRace.OwnSessionExactly`). So of two concurrent calls one can be refused while the session it has just opened is
  alive (`RefusedBesideHappens`). No interleaving carries a request out twice (`AtMostOnce`).
* "stable, per-realm-unique UUID" (internal/proxy/arrayident.go:49-51): unique exactly while the 48-bit hashes differ
  (`ArrayIdentity.IdsEqualExactly`), always so for equally long FQDNs that differ in one byte. Mapping back undoes the
  rewrite exactly on bodies that mention neither synthetic value (`RoundTripExactly`), and for every such body exactly
  when the two synthetic values are separable (`RoundTripIdentities`).
* `ReplaceAll` skips the second of two equal quoted names that share a quote: nothing quoted is left over exactly when
  there is no such pair (`QuotedText.NothingLeftExactly`).
* `multipath -ll` headers neither expression knows do not close the map before them: every known map gets exactly its own
  paths if and only if no path line follows an unknown header behind a known one (`Multipath.ParseInvertsPrint`).
* A map listed on several lines of one pass counts once for each: a pass acts as one sighting exactly when it failed, is a
  detach event, shows the map on at most one line, or shows it stale on none (`Cleaner.OneSightingExactly`).
* A data loss goes unrecorded if and only if the look at the context behind it found the run ended
  (cmd/pxstress/main.go:115-119, `Stress.Recorded`). A namespace prefix that starts with white space makes every healthy
  read a data loss (`Stress.NoFalseAlarmExactly`).

## Model

| member | source | states |
|---|---|---|
| QuotedText.QuotedReplace | internal/proxy/rewrite.go:180 | text replacement of a quoted name is replacement of whole pieces between quotes, for every body |
| QuotedText.PieceReplaceAt | internal/proxy/rewrite.go:353 | index by index, exactly the pieces that equal the name change, except one that shares its quote with a changed neighbour |
| QuotedText.MapBackStep | internal/proxy/rewrite.go:179-182 | replacing one more learned name after the others equals replacing all at once, so no iteration order shows |
| QuotedText.TokenWise | internal/proxy/rewrite.go:175-184 | without equal neighbours the text rewrite is the token substitution |
| QuotedText.NothingLeftExactly | internal/proxy/rewrite.go:175-184 | no learned name is left between quotes if and only if no two neighbouring pieces are the same learned name |
| QuotedText.InnerReplace | internal/proxy/arrayident.go:93-94 | text replacement of a quote-free name is replacement inside every piece, never across a quote |
| QuotedText.LeftoversExactly | internal/proxy/rewrite.go:352-353 | after a quoted replacement the name is left exactly inside the pieces that were not taken out as a whole |
| Query.QueryRoundTrip | internal/proxy/rewrite.go:86-95 | the array reads from the raw query the host and volume px wrote into it |
| Query.CleanForwards | internal/proxy/rewrite.go:86-95 | a query that mentions neither synthetic value is forwarded as it is |
| Query.EscapeReplace | internal/proxy/arrayident.go:93-94 | replacing URL-safe text commutes with percent-encoding when no match begins inside an escape |
| Query.EscapeUnescape | internal/proxy/rewrite.go:86-95 | text in which nothing stands bare that would be escaped, and no escape is idle, is the escape of what it decodes to |
| Query.CanonicalReplace | internal/proxy/arrayident.go:88-96 | mapping back in such text leaves such text, also where a match begins inside an escape |
| Query.ForwardedVolume | internal/proxy/rewrite.go:90-94 | the array is asked for the one volume whose escape is the rewritten text of px's volume |
| Query.ForwardsExactly | internal/proxy/rewrite.go:84-95 | the array is asked for the volume px named if and only if the query's text mentions neither synthetic value |
| Query.NameInVolume | internal/proxy/rewrite.go:90-94 | the array is not asked for a volume `<realm>::<synthetic name>` when px lists it |
| Query.NameFromEscape | internal/proxy/rewrite.go:90-94 | for an array name that begins with A a match can begin in the escape of a colon, and the array is asked for another volume |
| Query.CleanVolumeRewritten | internal/proxy/rewrite.go:90-94 | for array Array01 and FQDN lab the volume r::rray01-lab mentions neither synthetic value and is still not the one asked for |
| Query.AlignedVolume | internal/proxy/rewrite.go:90-94 | where no match can begin inside an escape, the array is asked for the volume with the synthetic values mapped back in its name |
| Fnv.Sum48IsRun | internal/proxy/arrayident.go:63-71 | the masked 64-bit hash is the run of a machine on 48 bits only |
| Fnv.HashOfA | internal/proxy/arrayident.go:63-64 | the published test vectors: the hash of nothing, and of the letter a |
| Fnv.TimesPrimeInverse | internal/proxy/arrayident.go:63-64 | multiplying by the prime modulo 2^48 is undone by its inverse |
| Fnv.StepBijective | internal/proxy/arrayident.go:63-64 | each 48-bit step can be undone, and gives the byte back from the two states |
| Fnv.OneByteApart | internal/proxy/arrayident.go:63-71 | byte strings of equal length that differ in one byte never share their 48-bit hash |
| Fnv.HexRoundTrip | internal/proxy/arrayident.go:71 | zero-padded hexadecimal of enough digits reads back as the value |
| Fnv.Hex12Injective | internal/proxy/arrayident.go:71 | twelve digits tell all 48-bit values apart |
| ArrayIdentity.ArrayIdentity.Ensure | internal/proxy/arrayident.go:26-47 | a known identity is kept; otherwise the first item of a 200 answer is latched, and any other answer changes nothing |
| ArrayIdentity.ArrayIdentity.SynthFor | internal/proxy/arrayident.go:52-72 | the synthetic identity for the FQDN once the real one is known, nothing before; `NameCarriesLabel` and `IdParts` say what it is |
| ArrayIdentity.NameCarriesLabel | internal/proxy/arrayident.go:59-62 | the name is the real one, a dash and the FQDN's first label, whatever domain follows |
| ArrayIdentity.NamesEqualExactly | internal/proxy/arrayident.go:59-71 | two FQDNs that do not begin with a dot share the synthetic name if and only if their first labels are equal |
| ArrayIdentity.IdParts | internal/proxy/arrayident.go:63-71 | a UUID's first 24 characters stay, and the last 12 read back as the low 48 bits of the FQDN's hash |
| ArrayIdentity.ArrayIdentity.RewriteResponseBody | internal/proxy/arrayident.go:75-84 | real to synthetic on quoted text, id before name; unchanged while nothing is known |
| ArrayIdentity.ArrayIdentity.RewriteRequestString | internal/proxy/arrayident.go:88-96 | synthetic to real on unquoted text, id before name; unchanged while nothing is known |
| ArrayIdentity.FirstUsableReplyWins | internal/proxy/arrayident.go:26-47 | over every run the identity is that of the first usable reply, for good |
| ArrayIdentity.SynthFree | internal/proxy/arrayident.go:65-71 | the synthetic values stay quote-free, the name only grows, and a 36-character id stays 36 characters long |
| ArrayIdentity.OneByteApartIds | internal/proxy/arrayident.go:49-71 | equally long FQDNs that differ in one byte get different synthetic ids |
| ArrayIdentity.IdsEqualExactly | internal/proxy/arrayident.go:49-71 | two FQDNs share a synthetic id if and only if their 48-bit hashes collide |
| ArrayIdentity.RoundTrip | internal/proxy/arrayident.go:75-96 | a body that mentions neither synthetic value comes back exactly from response rewrite and request rewrite |
| ArrayIdentity.RoundTripExactly | internal/proxy/arrayident.go:75-96 | for ids of UUID length these are the only bodies that come back |
| ArrayIdentity.RoundTripIdentities | internal/proxy/arrayident.go:75-96 | all such bodies come back if and only if the two synthetic values are separable |
| ArrayIdentity.WitnessLost | internal/proxy/arrayident.go:75-96 | for inseparable values one clean quoted value does not come back |
| Config.SplitCSV | internal/config/config.go:140-148 | the trimmed non-empty pieces between the commas, in order |
| Config.Initiators | internal/config/config.go:107-123 | iqns (or the legacy field), wwns, nqns in this order, transports without identifiers left out |
| Config.SplitUndoesJoin | internal/config/config.go:139-148 | splitting undoes joining trimmed comma-free values, whatever white space surrounds them; blanks vanish |
| Config.NonEmptyOf | internal/config/config.go:139-148 | exactly the non-empty values survive, and lists without empty values are kept as they are |
| Hosts.LegacyOnlyWhenUnset | internal/config/config.go:104-111 | the plural field wins whenever it lists anything, the legacy one counts only when it does not, and with neither there is no iSCSI entry |
| Resolve.IndexHosts | internal/proxy/rewrite.go:54-57 | each node keeps its last mapping, and no other node appears |
| Resolve.ResolveName | internal/proxy/rewrite.go:144-157 | a node whose name, prefix or array host matches, if there is one, and none only if there is none |
| Resolve.DeterministicExactly | internal/proxy/rewrite.go:150-155 | the answer is a function of the name if and only if no two nodes can be confused by prefix or array host |
| Resolve.Confusable | internal/proxy/rewrite.go:150-155 | any confusable pair leaves some name with two answers |
| Resolve.OwnNamesResolve | internal/proxy/rewrite.go:140-149 | `<realm>::<node>`, `<realm>::<node>-<suffix>` and `<realm>::<arrayHost>` reach their node, and the realm is read back |
| ArraySession.Session.Login | internal/proxy/array.go:38-55 | a login is one message: granted it stores a fresh token, otherwise the token stays |
| ArraySession.Session.Do | internal/proxy/array.go:69-105 | the messages of a call, as the network let them go, are a whole call's: login if there is no token, send, and behind a rejection a login and a second send; the array moved and the caller is answered as the last of them says; at most two sends and one execution |
| ArraySession.CallBounds | internal/proxy/array.go:69-105 | not carried out if and only if the last message was lost or was a refused login; 401 if and only if a rejection came right behind a fresh login; every login is followed by a send, so a first rejection and a granted login by the second one |
| ArraySession.SmoothServed | internal/proxy/array.go:14-17 | whatever token is stored, dead, alive or none: if nothing is lost, expires or is refused a login in the next four messages, the call is served |
| SessionRace.AtMostOnce | internal/proxy/array.go:69-105 | in every interleaving of calls the array carries each out at most once, and exactly once if and only if it was answered or its answer was lost; no call sends more than twice |
| SessionRace.OwnSessionExactly | internal/proxy/array.go:77-101 | the retry goes out under the call's own new session if and only if no other call stored a token in between |
| SessionRace.RefusedBeside | internal/proxy/array.go:93-101 | a call refused while its own new session is alive has met a token stored by another |
| SessionRace.RefusedBesideHappens | internal/proxy/array.go:93-101 | and that happens: a reachable interleaving of two calls |
| FlashArray.MapBackRender | internal/proxy/rewrite.go:175-184 | mapping names back in a listing's text maps them back in the listing, item by item |
| FlashArray.RenderInjective | internal/proxy/fada_sequence_test.go:113-118 | a listing can be read back from its text |
| FlashArray.MapBackError | internal/proxy/rewrite.go:110-126 | in an error answer nothing is exchanged but a message that is a learned name as a whole |
| Learning.HoldsLastTaught | internal/proxy/rewrite.go:163-173 | after every run each array host maps to the name taught last, and nothing else is known |
| Learning.NeverForgotten | internal/proxy/rewrite.go:163-173 | keys of the learned map are never lost |
| Learning.EntriesResolve | internal/proxy/rewrite.go:163-173 | every run keeps: each entry is a realm-scoped, not double-prefixed name that some resolution maps to its array host |
| Learning.EntriesResolveBack | internal/proxy/rewrite.go:144-173 | with an unambiguous host map every resolution of an entry is its array host |
| Learning.RequestTeaches | internal/proxy/rewrite.go:312-323 | every connection request is one lesson, and a well-named one is known by its end, whatever became of its calls |
| Learning.ListingExactly | internal/proxy/rewrite.go:175-184 | px's own notes equal the rewritten listing if and only if each array host was last learned under the name px has for that connection |
| Learning.LaterNameWins | internal/proxy/rewrite.go:172 | with two names on one array host, listings show the later for connections made under the earlier |
| Learning.HostListingExactly | internal/proxy/rewrite.go:352-353 | a listing filtered by host equals px's own notes if and only if every listed connection was made under the name px asked with |
| Learning.OtherRealmShown | internal/proxy/rewrite.go:352-353 | a second name on the same array host shows its volume under the first |
| Learning.DoublePrefixLeaks | internal/proxy/rewrite.go:159-171 | the double-prefixed name teaches nothing, and a listing shows the array host itself |
| Hosts.InjectedField | internal/proxy/rewrite.go:407-412 | an empty configured field gets its values, every other field stays |
| Hosts.Transports | internal/config/config.go:104-123 | each configured transport appears once with its full list, and never as the host's name |
| Hosts.InjectIdempotent | internal/proxy/rewrite.go:396-421 | injecting twice is injecting once, under the same resolutions |
| Hosts.InjectFrame | internal/proxy/rewrite.go:387-421 | only empty configured fields of resolving items change; other items, fields and top-level keys stay |
| Hosts.SynthShows | internal/proxy/rewrite.go:213-233 | the synthesized double-prefixed host shows every configured transport in full, under the name px asked for |
| Hosts.EmptyItemShows | internal/proxy/rewrite.go:399-413 | an empty realm host comes to show every configured transport in full, under its own name |
| Hosts.HostStepGood | internal/proxy/rewrite.go:208-267 | one create, patch or listing keeps realm hosts empty on the array; a faked patch echoes name and transports and nothing else; a listing is answered 200 unless a name without a wildcard finds nothing, and shows what px relies on |
| Hosts.HostRunGood | internal/proxy/rewrite.go:208-425 | over every run realm hosts stay empty on the array while every 200 listing shows each mapped realm host with all its transports |
| Rewriter.Rewriter.constructor | internal/proxy/rewrite.go:53-82 | an empty learned map and grant cache, the index of the host map, session and identity as configured |
| Rewriter.Rewriter.LearnRealmHost | internal/proxy/rewrite.go:163-173 | one lesson, under whichever resolution the map order gave |
| Protocol.OrderIrrelevant | internal/proxy/rewrite.go:177-184 | for names without quotes or clashes every iteration order gives the one simultaneous exchange of all learned names |
| Rewriter.Rewriter.MapConnHostsBack | internal/proxy/rewrite.go:177-184 | every learned name is replaced exactly once, in some order; for exchangeable names the result is the simultaneous exchange |
| Rewriter.Rewriter.EnsureRealmAccess | internal/proxy/rewrite.go:283-305 | cache, array and verdict move as one grant step; its messages are a whole call of the session, or none when the pair is cached |
| Rewriter.Rewriter.CallArrayHost | internal/proxy/rewrite.go:340-356 | the messages are a whole call of the session for the connection on the array host; the array moves as its end says, and the answer is the translated one, or the shim's own error |
| Rewriter.Rewriter.GrantAndCallHost | internal/proxy/rewrite.go:331-356 | the grant goes out before a POST only, and the connection call behind it unless it failed; both are on the wire |
| Protocol.GrantCounts | internal/proxy/rewrite.go:295-304 | a grant is cached if and only if the array says 200, or 400 with "exist"; any other status, such as 404, leaves the cache and ends the POST with 502 |
| Protocol.WithoutSession | internal/proxy/rewrite.go:323-327 | without an array session px's name is learned, nothing is granted, and the request goes on under px's own names |
| Rewriter.Rewriter.Connection | internal/proxy/rewrite.go:312-357 | shim, array, answer and messages move as one connection step: learn, grant before POST, call, translate; a request that is not intercepted sends nothing here |
| Rewriter.Rewriter.RewriteRequest | internal/proxy/rewrite.go:84-95 | the raw query with the identity mapped back, unchanged while none is known; an empty query asks for nothing |
| Rewriter.Rewriter.ModifyResponse | internal/proxy/rewrite.go:99-130 | identity first, then the learned names on connection listings only |
| Rewriter.Rewriter.Forward | internal/proxy/proxy.go:75-76 | one send of the request under px's token with its query rewritten, and nothing else; its end is the network's, and the answer comes back rewritten |
| Rewriter.Rewriter.InjectInto | internal/proxy/rewrite.go:407-412 | the loop fills exactly the empty configured fields, and reports a change whenever there is one |
| Rewriter.Rewriter.InjectOne | internal/proxy/rewrite.go:399-413 | one item: the lesson its name teaches and the fields it gains |
| Rewriter.Rewriter.InjectListed | internal/proxy/rewrite.go:397-414 | all items in order, with one lesson each |
| Rewriter.Rewriter.ModifyHostsResponse | internal/proxy/rewrite.go:363-447 | 200 bodies are injected, a wildcard's "no matching hosts" becomes an empty 200, everything else passes unchanged |
| Rewriter.Rewriter.Handle | internal/proxy/proxy.go:63-77 | the messages of one connection request are the grant and the call on the array host, or one send under px's token, as the request demands; array and answer are those of the protocol step with the ends these messages met |
| Refinement.KeyInjective | internal/proxy/rewrite.go:287 | the cache key tells (host, realm) pairs apart |
| Refinement.IdentTransparent | internal/proxy/arrayident.go:75-84 | a body whose quoted tokens are neither the array's id nor its name passes the identity rewrite unchanged |
| Refinement.VolumeListing | internal/proxy/rewrite.go:99-130 | a volume-filtered listing reaches px with exactly its own names |
| Refinement.OwnListing | internal/proxy/rewrite.go:352-353 | a host-filtered listing reaches px under the name it asked with |
| Refinement.GrantKeeps | internal/proxy/rewrite.go:283-305 | the cache stays within the array's grants, only the own realm is granted, and success means the grant holds |
| Messages.DuplicateSaysAlready | internal/proxy/rewrite.go:345-346 | the array's answer to a repeated connection is recognised |
| Messages.RepeatedGrantSaysExist | internal/proxy/rewrite.go:49-50 | the array's answer to a repeated grant is recognised |
| Messages.BodySaysAlready | internal/proxy/rewrite.go:346 | of an error answer only the message can say "already" |
| Messages.RefusalSaysAlready | internal/proxy/fada_sequence_test.go:106-108 | a refusal says "already" if and only if the host's or the realm's name does |
| Refinement.RefusesExactly | internal/proxy/fada_sequence_test.go:100-111 | a granted array host is refused a volume if and only if px's realm host would be |
| Refinement.GetRefines | internal/proxy/rewrite.go:340-356 | a host-filtered GET answers as the plain array does |
| Refinement.PostRefines | internal/proxy/rewrite.go:331-356 | a POST connects, repeats or is refused exactly as on the plain array, and the answers agree unless the refusal is misread |
| Refinement.DeleteRefines | internal/proxy/rewrite.go:340-356 | a DELETE removes exactly px's connection, or fails as the plain array does |
| Refinement.PrepareRefines | internal/proxy/rewrite.go:323-339 | before the call on the host goes out its name is learned and, for POST, its grant holds |
| Refinement.StepRefines | internal/proxy/rewrite.go:191-206 | every request keeps the relation to the plain array, whatever happened to its calls, and gets its answer if and only if it is not a misread refusal |
| Refinement.LessonsKeep | internal/proxy/rewrite.go:397-406 | a GET /hosts that teaches names in between keeps the relation |
| Refinement.RunRefines | internal/proxy/rewrite.go:307-357 | over every run of connection requests and host listings the answers agree exactly but for misread refusals, and the real connections are the image of the plain pairs |
| Refinement.FreshRunRefines | internal/proxy/rewrite.go:307-357 | the same from a fresh shim and an array that only others have connections on |
| Refinement.UndisturbedFates | internal/proxy/rewrite.go:295-304 | when no call is lost or rejected no request is, in any state of the shim: grants between existing hosts and realms are always accepted |
| Refinement.RelatedExchanges | internal/proxy/rewrite.go:177-184 | in every reachable state the learned names can be exchanged in any order |
| Refinement.OtherVolumeWrong | internal/proxy/rewrite.go:84-95 | whenever the rewritten query asks for another volume, or for all, px's listing is wrong in a state with one connection |
| Refinement.VolumeListingExactly | internal/proxy/rewrite.go:84-130 | with a known URL-safe identity px's volume listing is right in every related state if and only if the query's text mentions neither synthetic value |
| Leaks.RefusalNamesArrayHost | internal/proxy/rewrite.go:352-353 | a refusal names the array host, and the quoted rewrite does not reach into its message |
| Leaks.ListQuiet | internal/proxy/rewrite.go:99-130 | a listing by volume never names an array host of px's |
| Leaks.MentionsExactly | internal/proxy/rewrite.go:307-357 | px gets to see an array host if and only if it posts to a volume of another realm, the POST reaches the array, and neither name says "already" |
| Leaks.OtherRealmLeaks | internal/proxy/rewrite.go:331-356 | a first POST of px's host for a volume of another realm is answered with the array's refusal, array host included |
| Leaks.LeakWitness | internal/proxy/rewrite.go:331-356 | one such request |
| EndToEnd.PxCallOk | internal/proxy/rewrite.go:318-323 | the two separate resolutions of one request are both the right one |
| EndToEnd.PxNameFits | internal/proxy/rewrite.go:140-157 | px's name `<realm>::<node>-<suffix>` for a node's array host is one the refinement admits, and its realm is read back |
| EndToEnd.OneNodeFits | internal/proxy/fada_sequence_test.go:143-165 | a deployment of the integration test's shape meets everything the refinement asks for, with the identity on or off |
| EndToEnd.Answered | internal/proxy/proxy.go:63-77 | one request to the running shim is one request to the plain array: same answer unless a refusal is misread, and the relation holds again; unless one of its messages was lost, refused or rejected it was not lost, and with a smooth network and a live px session it never is |
| EndToEnd.WellCarried | internal/proxy/array.go:69-105 | messages that went well, or a smooth network from any token of the shim, carry the request |
| EndToEnd.RequestRefines | internal/proxy/proxy.go:63-77 | one request at the level of the protocol under what the running shim relies on |
| EndToEnd.HostsListed | internal/proxy/rewrite.go:363-425 | a GET /hosts answered by the running shim keeps the relation and forgets no name |
| GrantRace.NeverRefused | internal/proxy/rewrite.go:283-340 | in every interleaving the cache stays within the grants, no connect precedes its grant, and none is refused for lack of access |
| GrantRace.CallsAreMisses | internal/proxy/rewrite.go:287-302 | over every interleaving, calls made and still to be made are exactly as many as lookups that found the pair missing |
| GrantRace.OneCallExactly | internal/proxy/rewrite.go:281-302 | from the start, once no call is outstanding, at most one call was made if and only if at most one lookup missed |
| GrantRace.CachedGrantSettles | internal/proxy/rewrite.go:287-302 | once a pair is cached exactly the requests past their lookup still call, over any further run |
| GrantRace.SettledExactly | internal/proxy/rewrite.go:287-302 | once a pair is cached no interleaving calls again if and only if no request is past its lookup |
| GrantRace.SequentialCallsExactly | internal/proxy/rewrite.go:295-302 | one after the other, a request calls again if and only if no answer to an earlier call arrived; a lost answer is asked for again though the grant is held |
| GrantRace.BothCheck | internal/proxy/rewrite.go:288-290 | two concurrent requests can both find the cache empty |
| GrantRace.TwoCallsPossible | internal/proxy/rewrite.go:288-300 | and then both call |
| GrantRace.CacheTruthfulExactly | internal/proxy/rewrite.go:299-303 | after an answered grant call the cache is truthful if and only if host and realm exist; otherwise every connect it lets through to that realm is answered 400 |
| GrantRace.AcceptedMeansHeld | internal/proxy/rewrite.go:299-303 | for any array the cache stays truthful if and only if an accepted answer means the grant is held |
| GrantRace.RefusalReadAsDuplicate | internal/proxy/rewrite.go:345-350 | a refused POST reads as a 200 if and only if the host's or the realm's name says "already" |
| Linear.AloneIsHandled | internal/proxy/proxy.go:63-77 | the steps of one request with no other's in between leave the shim, the array and the answer as the sequential handler does |
| Linear.ListToldRight | internal/proxy/rewrite.go:175-184 | a listing is mapped back right under any names met on the way, as long as those known when the array gave it are among them |
| Linear.NextKeeps | internal/proxy/rewrite.go:283-357 | every step of every request keeps: the relation to the plain array, what each request relies on, and one place for each effect |
| Linear.Linearizable | internal/proxy/proxy.go:63-77 | in every interleaving each answer is the plain array's at the one place the request has among the effects, unless it is a misread refusal, and the connections are the image of the plain ones after all effects |
| Linear.RealTime | internal/proxy/proxy.go:63-77 | a request answered before another arrived takes effect before it |
| Linear.StartsRight | internal/proxy/rewrite.go:53-82 | a fresh shim beside connections of others is where all of this starts |
| Multipath.ParseMultipath | cmd/fada-cleaner/main.go:117-147 | the maps of the scanned lines, in order |
| Multipath.ParseKinds | cmd/fada-cleaner/main.go:118-146 | the loop with its open map groups lines as the specification does |
| Multipath.FormsExclusive | cmd/fada-cleaner/main.go:57-62 | the two header forms never match the same line |
| Multipath.ScanUnlines | cmd/fada-cleaner/main.go:120-122 | scanning newline-terminated lines gives the lines |
| Multipath.ParseFiles | cmd/fada-cleaner/main.go:117-147 | from the text of known and unknown maps in any order come the known ones, with the paths of unknown ones filed under the map before them |
| Multipath.ParseInvertsPrint | cmd/fada-cleaner/main.go:117-147 | every known map comes back with lower-cased id and exactly its own paths in order if and only if no path line follows an unknown header behind a known one |
| Multipath.UnknownHeaderMisfiles | cmd/fada-cleaner/main.go:137-141 | the paths behind an unknown header go to the map before it, so its path list is wrong if and only if there are any |
| Cleaner.PathsStale | cmd/fada-cleaner/main.go:186-204 | the early-returning loop decides: no paths, or a mismatching id, or no healthy path; the first mismatch is the reason |
| Cleaner.StaleAnyOrder | cmd/fada-cleaner/main.go:186-204 | the decision is the same for every permutation of the paths |
| Cleaner.Cleaner.ScanMap | cmd/fada-cleaner/main.go:243-267 | one map's streak, counts and flush decision |
| Cleaner.Cleaner.ScanAll | cmd/fada-cleaner/main.go:240-268 | the loop over the maps accumulates streaks, flushes, ids and counts in order |
| Cleaner.Cleaner.ForgetUnseen | cmd/fada-cleaner/main.go:269-273 | exactly the streaks of maps just seen survive, in any order of deletion |
| Cleaner.Cleaner.ScanAndClean | cmd/fada-cleaner/main.go:233-275 | from the listing's text, error and trigger: it counts as failed exactly when there is an error and no text, and then nothing changes; for a detach trigger exactly the orphans of our vendor are flushed, for "poll" exactly those that reached the grace; the streaks and counts left |
| Cleaner.PassDoes | cmd/fada-cleaner/main.go:240-273 | that, for the fold over the maps: idle, stale maps whose vendor contains ours ignoring case |
| Cleaner.PassOnListing | cmd/fada-cleaner/main.go:240-266 | map by map, from the lines of the listing that show it |
| Cleaner.OccursExactly | cmd/fada-cleaner/main.go:242-244 | lower-casing both sides finds the vendor exactly where it occurs letter by letter ignoring case |
| Cleaner.NotBeforeGrace | cmd/fada-cleaner/main.go:260-266 | a poll flushes nothing while the streak and the map's lines together stay below the grace |
| Cleaner.OnOneLine | cmd/fada-cleaner/main.go:260-266 | a map on one line is flushed by a poll if and only if it is an orphan and one more sighting reaches the grace; otherwise the streak is one more, or 0 |
| Cleaner.FlushedOnlyStale | cmd/fada-cleaner/main.go:242-267 | whatever is flushed was ours, idle and stale in this very pass |
| Cleaner.HandsOff | cmd/fada-cleaner/main.go:149-161 | a map in use or indeterminate, or healthy without a mismatch, is never flushed, whatever its streak |
| Cleaner.StreaksBounded | cmd/fada-cleaner/main.go:260-273 | every pass keeps streaks below the grace limit and their keys within the maps just seen |
| Cleaner.PassIsCounter | cmd/fada-cleaner/main.go:242-273 | each map's streak is a counter of its own over the lines of the pass that show it, in order; not being shown resets it |
| Cleaner.OneSightingExactly | cmd/fada-cleaner/main.go:242-273 | a pass counts as one sighting of a map exactly when it failed, is an event, shows the map on at most one line, or shows it stale on none |
| Cleaner.DistinctOnce | cmd/fada-cleaner/main.go:242-247 | distinct ids show every map on at most one line |
| Cleaner.CounterRefinesHistory | cmd/fada-cleaner/main.go:260-266 | the counter fires if and only if the history specification says a flush is due |
| Cleaner.FlushedExactlyWhenDue | cmd/fada-cleaner/main.go:230-275 | over every history, repeated ids included, a map is flushed in a pass if and only if one of its lines there is stale and the pass is an event or the stale lines since its last reset or flush reached the grace |
| Cleaner.FlushBudget | cmd/fada-cleaner/main.go:260-266 | flushes times grace plus the streak never exceed the stale sightings, with equality if stale throughout |
| Cleaner.PollRate | cmd/fada-cleaner/main.go:260-266 | by polling alone a map is flushed in at most lines/grace passes; with one line a pass in at most n/grace of n passes, exactly so if it is stale throughout |
| Cleaner.RepeatedIdCountsTwice | cmd/fada-cleaner/main.go:260-266 | an id listed twice exhausts a grace of two in one poll, which is not one sighting |
| Wakeup.NoLostDetach | cmd/fada-cleaner/main.go:334-340 | in every interleaving a poke is pending exactly when a detach came after the last was taken, and no detach is left without a scan to come |
| Wakeup.FromStart | cmd/fada-cleaner/main.go:334-387 | from the start: when the loop selects and nothing is pending a scan has started after every DELETED event of this node, or of any node without a node name, and there were no more event scans than such events |
| Wakeup.ScansTold | cmd/fada-cleaner/main.go:373-387 | every tick taken starts one scan for "poll", every scan that covers detaches is for "volumeattachment-delete", and there are no others |
| Wakeup.ScannedInTime | cmd/fada-cleaner/main.go:373-387 | whatever `select` chooses, a scan starts after any detach within three steps of the main loop and two more for each tick it takes |
| Stress.KeyInjective | cmd/pxstress/main.go:239 | no two instances of a run share a key |
| Stress.ReadBackTells | cmd/pxstress/main.go:246-250 | a read passes if and only if it is the instance's own key and the prefix does not start with white space |
| Stress.StoreIsHistory | cmd/pxstress/main.go:184 | what is expected of a volume is what was last written since it was last discarded, and is that instance's key |
| Stress.OracleExact | cmd/pxstress/main.go:232-255 | a wrong answer ends the log and is the reported loss, nothing else is reported, and a volume is written only while nothing is known of it |
| Stress.EveryInstanceVisited | cmd/pxstress/main.go:139-157 | between a scaling and the next step that detaches volumes every running instance is written or read |
| Stress.NoFalseAlarmExactly | cmd/pxstress/main.go:235-279 | when volumes survive, a loss is reported if and only if something was read and the prefix starts with white space, whatever the sizes |
| Stress.ExchangeCaught | cmd/pxstress/main.go:235-279 | any other instance's value under this instance ends the run with that loss |
| Stress.Pool.WaitReady | cmd/pxstress/main.go:211-230 | success means the wanted number was seen ready; failure means the context had ended or the clock was late; nothing but looks, status commands and the clock in between |
| Stress.Pool.Ensure | cmd/pxstress/main.go:187-194 | after success the wanted instances run and none has been visited |
| Stress.Pool.Scale | cmd/pxstress/main.go:196-201 | after success the wanted instances run and none has been visited |
| Stress.Pool.Recreate | cmd/pxstress/main.go:203-209 | after success nothing is expected of any volume |
| Stress.Pool.Check | cmd/pxstress/main.go:246-252 | one read: a loss is reported exactly when the observer sees one |
| Stress.Pool.Visit | cmd/pxstress/main.go:237-252 | a fresh instance is written its key, a known one is read |
| Stress.Pool.ReconcileIntegrity | cmd/pxstress/main.go:235-255 | after success every running instance has been visited and is expected to hold its key |
| Stress.Pool.KillAndVerify | cmd/pxstress/main.go:259-279 | only a known instance is killed, and is read after all are ready again |
| Stress.Pool.DeletePVCsFrom | cmd/pxstress/main.go:281-291 | exactly the volumes from `keep` through the maximum are discarded and forgotten |
| Stress.Fail | cmd/pxstress/main.go:111-126 | an error ends the pool, is recorded if and only if the look at the context found the run going on, and ends the run if it stops on errors; the note before the look is what is recorded |
| Stress.ScaleTo | cmd/pxstress/main.go:141-157 | one stop of the job: a look, scaled, unused volumes discarded, the rest visited, or the run is over |
| Stress.RunPattern | cmd/pxstress/main.go:139-158 | the three stops in their order |
| Stress.RunCycle | cmd/pxstress/main.go:137-174 | the moves of one cycle, with the recreation every Nth time |
| Stress.RunPool | cmd/pxstress/main.go:108-176 | everything the run noted is true of the world and follows the job from the first deployment to the last look; the log is one the observer admits, a loss is recorded if and only if he saw it and the run was found going on, at most one failure is recorded and stops the run if asked to, and the moves follow the schedule |
| Stress.RunShape | cmd/pxstress/main.go:111-137 | such a run begins with deploying the smallest size, ends with a look, and any failed command, ended context or late clock is the last thing before that look; it ends without one only because the look found it ended or an answer was wrong |
| Stress.DiscardedBehind | cmd/pxstress/main.go:148-153 | behind a scale-down every volume from the new size to the greatest is discarded before the next visit and the next move |
| Stress.EveryLookWorks | cmd/pxstress/main.go:136-174 | no run only watches: looks are at most commands, cycles begun and one; with instances at the smallest and the middle size at most commands and one |
| Stress.EmptyPoolWatches | cmd/pxstress/main.go:136-174 | a pool deployed without instances can look twice more than it gives commands |
| Stress.ScheduleAt | cmd/pxstress/main.go:128-165 | without recreation the moves are the deployment and, cycle by cycle, mid, max, mid and the kill, each in its place |
| Stress.WipedEvery | cmd/pxstress/main.go:164-171 | with recreation every N cycles the pool is wiped cycles/N times |
| Stress.LookBeforeScaling | cmd/pxstress/main.go:141-146 | right before every scaling the context was looked at and had not ended |
| Stress.StoryIs | cmd/pxstress/main.go:108-176 | what a run keeps of its past, step by step, is the log, time, faithfulness, progress and moves of everything noted |

## Left out

- HTTP, TLS, reverse-proxy mechanics, Content-Length handling, certificates, logging, heartbeats, flags, environment and the manifest template: plumbing without decisions. A request is a verb, an FQDN, its host and volume names; a response is a status and a body.
- `RewriteEnabled=false`: the handlers then do nothing.
- JSON text of `/hosts`: items are JSON values, so escapes, number formats, duplicate keys and Go's case-insensitive key matching are not modelled, nor is the identity rewrite on that text.
- Escaped quotes in connection listings, the `lun` field of an item, and listings the array would order or page differently.
- Rewriter.Rewriter.Handle: the query holds `host_names` and `volume_names` only, encoded as Go's `url.Values` does; other parameters are not modelled. What px's own realm token may see or do is not restricted.
- ArraySession.Session.Do: one call at a time, so "right behind a fresh login" is about this call's own login. `SessionRace` interleaves calls, but only as steps on the token and on whether the array carried a call out; `Linear` takes each call's outcome as given. Responses cut off in the middle count as lost answers.
- Linear.Linearizable: an array without a session configured, and names or host maps outside the conditions above. What the shim knows of the identity when it rewrites a query or an answer is given with each request.
- Hosts.HostStepGood: `getHostSynth` and `patchHostInitiators` are modelled as functions of the request and not as methods; a PATCH body that does not parse is passed on by the code and is not modelled.
- Rewriter.Rewriter.Forward: the GET /arrays calls that discover the identity are not on the trace; their replies are given with the request. What the network does to them does not touch the connections.
- EndToEnd.Answered: states one request, and `HostsListed` one listing; the run is their repetition, stated over the protocol functions in `Refinement.RunRefines`.
- Startup validation of the token, `sanitizeAPIToken`, lists of several `host_names`, and methods other than GET, POST and DELETE on `/connections`: no deep property.
- Shim restarts (the maps are in memory), and other tenants that change connections or revoke grants during a run.
- Strings are sequences of bytes; Unicode white space and case folding are not modelled, nor is `bufio.Scanner`'s limit of 64 KiB for a line.
- `nsenter`, `multipath`, `dmsetup`, `scsi_id`, the commands of the full disconnect and the watch stream: their answers are arbitrary inputs of a pass, and the host does not change between an observation and the flush.
- Stress.RunPool: one pool; others only show as a context that may end at any time. Every look at the context takes some of the run's time. Pauses are not noted. A PVC deleted with `--wait=false` counts as discarded at once. `oc` failures are nondeterministic, and their output is not modelled.
- `scripts/` and `deploy/`: best-effort calls and manifests.
