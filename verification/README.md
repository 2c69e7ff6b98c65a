# ts-slack-bot: a Dafny model of the chat deployment bot

The bot (`main.go`, package `main`) joins a Slack workspace, works out the
one channel it belongs to, and then reads real-time events. A message that
starts with `!` and was not written by the bot is tokenized and handed to a
small command table: `!deploy` resolves the newest commit's short SHA on
GitHub and rolls the Kubernetes deployment onto `prefix:sha` with `kubectl
set image` and `kubectl rollout status`; `!pods` runs `kubectl get pods`.
Handlers report progress through a *printer* that posts to the channel the
command came from; whatever the command framework itself writes (usage,
flag errors) is collected in a buffer and posted afterwards, fenced in
triple backticks.

The model keeps this decision layer and turns every external call into an
input:

- `outcomes.dfy` (`Outcomes`): `Option` (a Go reference that may be nil) and
  `Result` (a value or an error message).
- `text.dfy` (`Text`): `strings.HasPrefix`/`TrimPrefix`, the code fence and
  its inverse, and `%d` rendering of a count with its inverse.
- `channels.dfy` (`Channels`): startup channel selection.
- `kube.dfy` (`Kube`): the `kubectl` argument vectors, the image reference,
  and how `kubectl` and a registry read them back (`FlagValue`, `EffectiveNamespace`, `SplitTag`).
- `commands.dfy` (`Commands`): revision resolution, `deployCmd`, `podsCmd`
  and the command table.
- `bot.dfy` (`Bot`): per-event handling, the event loop over a finite feed,
  and the whole run from startup.
- `scenarios.dfy` (`Scenarios`): concrete runs.

A command run is a `Run`: the messages sent through the printer, in order,
the external calls issued (`ListCommits(org, repo)` or `Kubectl(args)`), in
order, and the error handed back to the framework. An event's observable
result is an `Effects`: posts (channel and text) and calls. The outside
world answering one event is a `World`: the tokenizer, the framework's
routing of the argument vector, the commit listing, and a `Cluster`
function giving the `kubectl` outcome (success flag and combined output) of
each argument vector.

Points where the code's behaviour is easy to misread:

- Revision resolution takes the first commit whose SHA is non-nil, not the
  first non-empty SHA. A present but empty (or shorter than 12 characters)
  SHA is sliced and makes the Go program panic, so the model requires the
  first present SHA to have at least 12 characters
  (`Commands.ShaSliceable`); a listing whose first SHA is `""` is outside
  that domain (`Scenarios.EmptyShaIsNotSkipped`).
- Command output goes to the channel of the message (`cc.Channel`); only
  the greeting uses the channel chosen at startup. Messages from other
  conversations are not filtered out.
- The deploy command's own errors ("no sha found", a failed listing) go to
  the framework, whose exit-error handler does nothing, so they never reach
  the chat.
- The command table (main.go:114-121) is stated as `Bot.TableRouting`, a
  condition on the framework's routing: `deploy` runs the deploy action,
  `pods` the pods action with its `--namespace` value, a bare `!` and any
  other name that is not a flag nothing.

## Model

| member | source | states |
|---|---|---|
| `Channels.HasMember` | main.go:73-80 | the membership scan is true exactly when the bot's user ID is in the channel's member list |
| `Channels.Joined` | main.go:71-84 | the kept IDs are exactly the IDs of listed channels containing the user, no more entries than the listing |
| `Channels.JoinedAppend` | main.go:71-84 | the selection distributes over concatenation of the listing, so listing order is kept |
| `Channels.JoinedSingle` | main.go:86-89 | exactly one ID is kept iff exactly one listed channel contains the user, and then it is that channel's ID |
| `Channels.SelectChannel` | main.go:71-89 | startup fails with "must only be in one channel" iff the number of channels containing the user is not 1; otherwise it yields the unique such channel |
| `Text.TrimPrefix` | main.go:125 | with the prefix present, prefix + result is the text; otherwise the text is unchanged |
| `Text.Fence` | main.go:133 | the fenced text is the body between two triple backticks, six characters longer |
| `Text.Decimal` | main.go:172 | the count renders as a non-empty all-digit numeral without leading zeros |
| `Text.DecimalRoundTrip` | main.go:172 | reading the rendered count back gives the count |
| `Text.DecimalInjective` | main.go:172 | different counts give different messages |
| `Kube.PodsArgs` | main.go:199-202 | the pods vector is `get pods`, followed by `-n <ns>` exactly when the namespace is non-empty |
| `Kube.PodsNamespaceScoped` | main.go:199-203 | kubectl reads the pods command as scoped to the requested namespace, and unscoped exactly when none is given |
| `Kube.EffectiveNamespace` | main.go:199-202 | the namespace a kubectl command line selects is its `-n` value when non-empty; no `-n`, or an empty one, selects kubectl's default |
| `Kube.ImageRef` | main.go:173 | the image reference is the prefix, a colon, then the revision |
| `Kube.ImageRefSplits` | main.go:173 | a colon-free revision is read back as the tag of the reference, with the prefix as the name |
| `Kube.SetImageArgs` | main.go:175 | the set-image vector is `-n ns set image deployments/<dep> *=<image>` |
| `Kube.RolloutArgs` | main.go:181 | the rollout vector is `-n ns rollout status deployments/<dep>` |
| `Kube.DeploymentCommandsScoped` | main.go:175-181 | both deployment commands act in the configured namespace when it is non-empty and in kubectl's default when it is empty (an empty `-n` counts as unset), the same namespace the pods listing uses for that value |
| `Commands.ShaSliceableMeans` | main.go:160-165 | the precondition says exactly that the first present SHA has at least 12 characters |
| `Commands.ShortRevision` | main.go:160-168 | the result is "" iff no commit has a SHA; otherwise it is 12 characters, the prefix of the first present SHA |
| `Commands.DeployCmd` | main.go:148-189 | the deploy trace starts with "about to deploy" and a ListCommits call; a failed listing or no SHA ends it there with the error; otherwise the image and set-image call are fixed by the revision, a failure is reported as `ERROR: <output>` and ends the run without error, and full success gives the six-message trace |
| `Commands.DeployShortCircuits` | main.go:175-188 | rollout status is awaited iff set-image succeeded; the last message is "finished deployment" iff both kubectl calls succeeded; a failed last call is the last message, as an ERROR report |
| `Commands.DeployFollowsPlan` | main.go:149-187 | for a successful commit listing, the calls are a prefix of the full plan, and the messages a prefix of the success trace, possibly followed by one error report |
| `Commands.PodsCmd` | main.go:197-210 | pods announces, issues exactly one kubectl call, posts the fenced output on success and nothing more on failure, and never returns an error |
| `Commands.Invoke` | main.go:115-120 | the action bound to `pods` runs the pods handler and the one bound to `deploy` the deploy handler: each handler's first message and first call identify it |
| `Bot.TableRoutesDeploy` | main.go:118-120 | under the command table, `!deploy` is routed to the deploy action |
| `Bot.TableRoutesPods` | main.go:115-117 | under the command table, `!pods` is routed to the pods action with namespace "", and `!pods --namespace n` with namespace `n` |
| `Bot.TableRejectsOthers` | main.go:114-121 | under the command table, a bare `!` or a first token that is neither a flag nor `pods`/`deploy` runs no action |
| `Bot.RoutedCommand` | main.go:125-134 | a routed command's messages, then the flushed buffer, are posted to the message's channel, and its calls are the event's calls |
| `Bot.UnroutedCommand` | main.go:125-134 | a tokenized command the framework runs nothing for makes no call and posts only the flushed buffer |
| `Bot.DeployMessageDeploys` | main.go:113-134 | a `!deploy` message from someone else has exactly the deploy command's calls, and posts its messages then the flushed buffer to the message's channel |
| `Bot.PodsMessageListsPods` | main.go:113-134 | `!pods` and `!pods --namespace n` run the pods command for "" and `n`, posting to the message's channel |
| `Bot.UnknownCommandRunsNothing` | main.go:113-134 | under the command table, a bare `!` or any other command name that is not a flag makes no call and posts only the flushed buffer |
| `Bot.Deliver` | main.go:142-146 | every message a handler gives its printer is posted, in order, to the bound channel |
| `Bot.Flush` | main.go:132-134 | the buffer yields one message iff it is non-empty, and that message is the buffer between an opening and a closing triple backtick |
| `Bot.HandleEvent` | main.go:93-135 | greeting to the startup channel; own messages, plain chat and other events do nothing; a tokenizer error posts `error: <msg>`; a command's messages then the flushed buffer go to the message's channel; no call happens unless a handler runs |
| `Bot.HandleFeed` | main.go:93-136 | every post of the loop goes to the startup channel or to a channel some message came from |
| `Bot.QuietFeed` | main.go:101-106 | a feed of self-authored messages, plain chat and non-greeting events causes no post and no call |
| `Bot.FeedAppend` | main.go:93-136 | events are handled one after another in feed order: the effects of a concatenated feed are the effects of its parts in order |
| `Bot.Start` | main.go:71-93 | the run fails with the startup error, before any event, iff the user is not in exactly one channel; otherwise the feed is handled with the unique channel as the startup channel |
| `Bot.DeployErrorNotPosted` | main.go:149-171 | when listing fails or no SHA exists, the chat sees only "about to deploy" and possibly the fenced framework buffer, and only the ListCommits call happens |

## Left out

- Slack connection handling: `rtm.ManageConnection` in its goroutine, `AuthTest`, `GetChannels` and message sending (main.go:56-70, 97-98, 108-111). The bot's user ID and the channel listing are inputs, and sent messages are `Post` values; the errors of `AuthTest` and `GetChannels` are not modelled.
- The event feed is a finite sequence of `Step`s, each pairing an event with the answers the world gives while it is handled; the unbounded loop and closing of the feed are not modelled.
- `shellwords.Parse` and the urfave/cli framework (routing, flag parsing, help and usage text) are foreign libraries: the tokenizer is a function in `World`, and the framework is a `Routing` function of the argument vector `["foo"] + tokens` giving the action it runs and the text it writes to the buffer. `Bot.TableRouting` pins down the routings of the command table; other flag spellings (`--namespace=n`, `-namespace n`) and the usage text are left to the framework.
- Bot.TableRouting: command lines whose first token starts with `-` (application flags such as `--help`, `--version`, or a `--` that ends them, after which the framework looks up the next token as the command) are not constrained; the framework's handling of them is not modelled.
- External calls are assumed to return. The source sets no timeout on the commit listing or on either kubectl run (main.go:155, 175, 181), so a hang there blocks the whole event loop; the model has no notion of time or of a call that never answers.
- The GitHub client and its oauth2 token source (main.go:191-195), and the never-taken error branch after it (main.go:151-154): `githubClientFromENV` always returns a nil error. `ListCommits` is an input: an error or the commits' optional SHAs in the order returned.
- `exec.Command("kubectl", ...)`: each run is a `Cluster` outcome per argument vector; only the vector is recorded.
- Environment loading in `newHandler` (main.go:41-53) and every `log` line, including the local log of a failed pods listing (main.go:205).
- Commands.ShortRevision: Go slices the SHA by bytes and the model by characters; they agree on the hexadecimal ASCII SHAs GitHub returns.
- Commands.ShaSliceable: a first present SHA shorter than 12 characters makes the Go program panic; the model excludes that input instead of modelling the crash.
