# ck8s in Dafny

A model of ck8s, the command line tool that creates and maintains Kubernetes clusters on cloud
providers by driving Terraform, Ansible, kubectl, kubeadm and SSH, with proofs of what its Go code
guarantees around those tools. `dafny verify dfyconfig.toml` checks everything.

## What is modelled

**Node lifecycle** (`Fleet`, `Images`, `PlanCheck`, `Lifecycle`, `ClusterClient`, then `Stages`, `Removal`,
`Joining`, `Protocol`, `Reconcile`, `KeptNodes`, `Replace`, `Guarantees`, `Progress`, `LostAnswers`, and
`Answers`). Adding, cloning, removing and replacing nodes and applying the configuration. The world holds the
machine maps of both clusters in memory, in `tfvars.json` and in the Terraform state, the number of Terraform
resources that belong to no machine and are to be created, changed or destroyed, the Ansible inventory, the
Kubernetes nodes, the machines that hold a `kubelet.conf`, and a log. An external tool is one step with a stated
effect; a draw from the world decides whether it succeeds, how far it got, and whether its exit code got lost: a
failed apply stops part-way, a write may tear the file, a node may be deleted although failure is reported, and
a tool whose exit code is lost is reported as a success whatever it did; the log says where that happened.
Results that need the exit code of a step name that step, and `LostAnswers` shows runs in which they fail
without it. `Progress` shows that with every tool working each command succeeds and does what it is asked to.
`Answers` derives these draws from the command runner. Without a draw left the process is gone, so every point
of a run is the end of a run. `ClusterClient` is the client as the Go program writes it, a class over a cluster
object whose maps are updated in place and whose methods return at the first error; each method is proved equal
to a script of steps (`Lifecycle`), and the theorems are about all sequences of commands over these scripts.
Random names, the order in which machines are waited for, and the API server version are parameters.

**Command runner** (`Text`, `Errors`, `StandardRunner`, `Tools`, `Signals`, `SignalRuns`, `SSHAgent`). Error
values with `errors.Is`, the runner with its output handler, teed pipes, exit code handlers and record of caught
signals, the two questions asked through it (does a node exist, does a plan have a diff), the signal goroutines
of all runs as interleaved steps over one-slot channels and the signals each run counts, and the SSH agent: the
parser of its output and the bracket around Ansible commands that share one environment map and one runner, with
the agents it leaves behind.

**Names and inventories** (`Names`, `Inventory`, `InventoryVars`, `Hosts`). Instance names in Terraform output,
their way back into machine states, and the inventory template with a reader of INI inventories that undoes it,
joined to one chain from configured machine to Kubernetes node, with load balancers that are machines and
without. Loops over Go maps take any order.

**Configuration and machines** (`Initialisation`, `MachineFactory`, `WaitForSSH`). The initialiser over a
directory in which any call can fail and any write can tear; machines and their settings as heap objects that
are copied through JSON numbers; the SSH wait loop over a clock.

## What the proofs say about doubtful spots

- The "second diff check" takes a plan as empty for every multiple of ten additions
  (`PlanCheck.AcceptedExactly`, `PlanCheck.TenAdditionsPass`). A world with something pending gets past it exactly
  if nothing is to change or be destroyed and a multiple of ten lies between the fewest and the most additions
  (`Stages.Passable`, `Reconcile.CheckCanPassExactly`). That happens: a new cluster of two machines with five
  resources each, as workers on Azure have, can pass before anything is created unless the number of its other
  resources ends in nine (`Reconcile.BootstrapCanPass`), and so can one worker's five resources together with
  five of its load balancer (`Reconcile.PartialCanPass`). It does not happen in worlds reached from one in which
  creating what is due takes fewer than ten additions (`Reconcile.CheckIsExactWhenReachable`).
- The comment above `handleWaitError` says that an error is returned when the exit code cannot be
  determined; the caller drops it because `handled` is true (`runner/standard.go:187`, `:217-218`). So
  a command whose exit code is unknown succeeds (`Tools.PlanNoDiff`, `Answers.ResetAnswer`). What that costs: a
  lost plan lets a command go on and apply what was pending (`LostAnswers.LostPlanAppliesAll`), a lost last apply
  leaves a removed machine in the state (`LostAnswers.LostApplyKeepsMachine`), a lost apply makes nodes of machines
  that wait to be destroyed (`LostAnswers.LostApplyJoinsDoomed`), a lost node deletion destroys the machine of a
  node (`LostAnswers.LostDeletionKeepsNode`), and a lost join makes a replacement cost a live node
  (`LostAnswers.LostJoinCostsNode`). Where none of these steps loses its exit code the results hold.
- "not found" on stderr counts as a missing node whatever it is about (`Tools.OtherNotFoundAlsoCounts`); the node
  is then removed without being drained.
- A caught signal replaces the errors collected before (`runner/standard.go:183`); `Reported` in
  `StandardRunner` is exact about it. The record is never cleared, so all later runs fail
  (`Signals.FailedForGood`), and a signal still in the channel when a run ends is noticed only by the
  next run (`Signals.LateSignalPasses`, `Signals.LateSignalFailsNext`).
- An SSH agent that was launched stays behind exactly if its start returned an error or its kill did not exit
  with 0 (`SSHAgent.NoneSurvivesExactly`); once a signal is on record every start returns an error
  (`SSHAgent.SignalLeavesAgents`).
- A key pair of which only one half was written stays so, a torn file stays torn, and with a torn SOPS config
  nothing can be encrypted any more (`Initialisation.HalfPairHappens`, `Initialisation.HalfPairStays`,
  `Initialisation.CompletesExactly`).
- Cloning a Safespring load balancer with an image always ends in the skew test of an image without a kubelet
  version (`Guarantees.CloneWithoutKubelet`).
- Names reported without a prefix lose a leading cluster name (`Names.BareNamesComeBack`).
- Settings above 2^53 change when a machine is cloned with an image (`MachineFactory.CopiedExactly`,
  `MachineFactory.NotBeyond`).

## Model

| member | source | states |
|---|---|---|
| Removal.GoneMeansCleared | client/cluster.go:448-496 | A configured and provisioned machine that is missing from map, tfvars file or Terraform state after any sequence of commands, with failures anywhere, was taken out of the map on the way, and before that, in the same process, its node was asked for, drained if seen, reset and deleted |
| Removal.RemovalsAlwaysSafe | client/cluster.go:448-496 | Over every such sequence each removal from the map has that ordered and successful evidence before it |
| Removal.OnlyRemovalLosesIt | client/cluster.go:531-563 | No other step, a failed apply included, takes a machine that is alike in map, file and state out of any of them |
| Removal.ClearsNode | client/cluster.go:424-446 | Asking, draining and resetting that all succeed leave the ordered evidence in the log |
| Protocol.DrainAnswers | client/cluster.go:459-472 | A node that was seen is drained successfully exactly if the drain is reported to succeed; one that was not seen is not drained |
| Protocol.FailedDrainLeavesAll | client/cluster.go:466-469 | A removal whose drain is reported failed fails and leaves nodes, map, file and state as they were |
| Protocol.FailureEnds | client/cluster.go:448-496 | In every command a tool that neither works nor loses its exit code ends it with a failure, and nothing after it is called |
| Protocol.AlwaysOrdered | client/cluster.go:181-209 | Over every sequence of commands with failures anywhere, each step is called only directly after the steps it builds on succeeded, and after all it depends on since the process last read or changed the machine map |
| Protocol.SuccessFinishes | client/cluster.go:140-209 | A successful command ended with its last steps, after the apply, the waits and the load balancer update it owes |
| Joining.JoinsAlwaysPrepared | client/cluster.go:181-209 | Over every sequence of commands with failures anywhere, nodes are joined only right after the machine that the same process last put into the map was found in the Terraform state, answered over SSH, and the nodes were prepared |
| Reconcile.SuccessReconciles | client/cluster.go:531-563 | From any world, a successful add, clone, remove, replace or apply ends with machine map, tfvars file and Terraform state equal and nothing left to do, unless the exit code of its last apply was lost |
| Reconcile.SettledReconciles | client/cluster.go:181-209 | Where nothing was pending and whatever exit codes get lost: a successful add or clone always ends so, because the new machine is looked up, and a successful removal or replacement exactly if the old machine is gone from the state |
| Reconcile.AddedAsAsked | client/cluster.go:295-340 | A successful addition puts a machine of the type, size, image and settings asked for into map and file under the name asked for, with the latest image if none is named, and it is in the state |
| LostAnswers.LostApplyKeepsMachine | runner/standard.go:212-218 | From every settled world a removal can succeed and leave its machine in the Terraform state, if the last apply's exit code is lost |
| LostAnswers.LostPlanAppliesAll | runner/standard.go:212-218 | From every world a clone can get past the check and apply everything pending, if the plan's exit code is lost |
| LostAnswers.LostJoinCostsNode | runner/standard.go:212-218 | From every settled world a replacement can succeed with one live node fewer, if the join's exit code is lost |
| LostAnswers.LostDeletionKeepsNode | runner/standard.go:212-218 | From every settled world a removal can succeed and destroy the machine of a node, if the deletion's exit code is lost |
| LostAnswers.LostApplyJoinsDoomed | runner/standard.go:212-218 | An apply can succeed and make a node of a machine that waits to be destroyed, if its Terraform apply's exit code is lost |
| Progress.RemovalSucceeds | client/cluster.go:448-496 | From every settled world a removal during which every tool works succeeds, with machine and node gone and map, file and state equal |
| Progress.AdditionSucceeds | cmd/ck8s/k8s.go:128-168 | So does an addition under an unused name of an image in skew: the machine is configured as asked for, with the latest image if none is named, and is a node unless it is a load balancer |
| Progress.CloningSucceeds | cmd/ck8s/k8s.go:183-206 | So does a clone: it is configured like the original but for the image if one is named, and is a node unless it is a load balancer |
| Progress.ReplacementSucceeds | cmd/ck8s/k8s.go:221-248 | So does a replacement: the machine is swapped for its clone, which is a node unless it is a load balancer, and the old machine is none |
| Progress.ApplySucceeds | client/cluster.go:140-173 | From every world whose file can be read an apply during which every tool works succeeds: the state becomes what the file describes, and its masters and workers without a kubelet.conf become nodes |
| Reconcile.OtherClusterUntouched | api/exoscale/tfvars.go:32-73 | From any world and over every sequence of commands the other cluster's machines stay as they were in file and state |
| Reconcile.PendingStops | client/cluster.go:589-604 | From any world in which the check cannot pass, add, clone, remove and replace fail before anything but the process's memory changes, unless the plan's exit code was lost |
| Reconcile.PastTheCheckExactly | runner/standard.go:212-218 | From such a world they get past the check exactly if the configuration is read, the initialisation reports success and the plan fails with its exit code lost |
| Reconcile.PendingUntilApply | client/cluster.go:589-604 | This lasts through any number of commands until an apply runs or a plan's exit code is lost |
| Reconcile.CheckCanPassExactly | runner/terraform.go:123-143 | Some run of the check whose exit code is known goes on exactly if nothing is to change or be destroyed, of machines or other resources, and a multiple of ten lies between the fewest and the most additions |
| Reconcile.PendingIsSeen | runner/terraform.go:123-143 | A guard a caller can check: something to change or destroy, or missing machines and other resources that take fewer than ten additions in all, keep later changes away |
| Reconcile.BootstrapCanPass | runner/terraform.go:136-143 | Two machines of five resources that are not there yet can pass as no difference exactly if the number of other resources to create does not end in nine |
| Reconcile.PartialCanPass | terraform/azure/modules/kubernetes-cluster/main.tf:249-466 | One worker of five resources and five other resources that are not there yet can pass as no difference |
| Reconcile.CheckIsExactWhenReachable | runner/terraform.go:130-143 | From any world in which creating what is due takes fewer than ten additions, and as long as no plan's exit code is lost on the way: a plan that works passes exactly if file and state agree and nothing else is to do, one that does not exactly if its exit code is lost |
| KeptNodes.NeverRecreated | client/cluster.go:311-313 | Started in a world in which the file keeps the machine of every node, however many machines are pending: at every step of every command, after any commands, no machine that is a node before and after is destroyed, changed or created anew by the step or since the command began, as long as no Terraform apply and no node deletion lost its exit code |
| KeptNodes.ReachableSafe | client/cluster.go:311-313 | So in every world reached the file keeps the machine of every node |
| Reconcile.RemoveKeeps | client/cluster.go:448-496 | A removal touches no machine but the named one, whatever gets lost, and nothing where the check cannot pass unless the plan's exit code was lost |
| Stages.CheckPassesExactly | runner/terraform.go:130-143 | In any world a plan that works passes exactly if nothing is to change or be destroyed and all additions together are a multiple of ten, one that does not exactly if its exit code is lost |
| Stages.PartlyAppliedExactly | client/cluster.go:541-543 | A failed apply can stop at every point between what was and what should be, and nowhere else |
| Answers.PlanAnswer | runner/terraform.go:106-146 | The lifecycle's plan step passes exactly if the runner succeeds on the plan's child process, whatever it exits with |
| Answers.NodeAnswer | client/cluster.go:396-422 | The lifecycle's existence step goes on, and sees the node, exactly as the client's question is answered, a misleading "not found" included |
| Answers.PlainAnswer | runner/standard.go:186-204 | For a command without handlers a step reports success exactly if the runner does |
| Answers.ToolAnswer | runner/standard.go:101-205 | For each tool without handlers, draining and deleting nodes among them, the lifecycle's step reports success exactly if the runner succeeds on the child |
| Answers.OutputAnswer | runner/terraform.go:178-196 | The same for Terraform's output, which a handler decodes |
| Answers.PlaybookAnswer | runner/sshagent.go:50-69 | A playbook's step reports success exactly if the agent's start, adding the key and the playbook all do |
| Answers.FileAnswer | client/cluster.go:534-560 | Writing and reading files succeeds exactly if the system lets it |
| Answers.WaitAnswer | client/machine.go:95-118 | Waiting for a machine succeeds exactly if an attempt that starts in time is answered |
| Answers.LookupAnswer | client/cluster.go:262-271 | A machine is found exactly if it is in the state or the map, an image exactly if the type has one of the name |
| Answers.ResetAnswer | client/machine.go:52-59 | A reset is reported as done with the kubelet configuration still there exactly if the exit code was lost on a reset without effect |
| Replace.ReplaceKeepsConfigured | cmd/ck8s/k8s.go:221-248 | Wherever a replacement stops and whatever exit codes get lost, the map is what it was, or has gained the clone, or has the clone instead of the old machine; no node type has fewer configured machines |
| Replace.ReplaceKeepsProvisioned | cmd/ck8s/k8s.go:221-248 | Nor fewer provisioned machines, if no machine waits to be changed or destroyed or no plan's exit code is lost |
| Replace.ReplaceKeepsLive | cmd/ck8s/k8s.go:221-248 | Nor fewer live nodes, from a world in which the file keeps every node's machine, unless the join's exit code is lost |
| Replace.RemovalAfterJoin | cmd/ck8s/k8s.go:236-243 | From any world and at every point: once the old node is as much as asked for, reading, cloning and joining have succeeded |
| Guarantees.CapacityThroughout | cmd/ck8s/k8s.go:221-248 | The three capacities at every point of a replacement, each under its own condition on what was lost so far |
| Guarantees.OldStaysUntilClone | cmd/ck8s/k8s.go:236-243 | At every point the old machine is missing from map or state only when the clone is there, and from the nodes only when the clone is a node unless the join's exit code was lost |
| Guarantees.PrefixIsARun | cmd/ck8s/k8s.go:221-248 | The world after any number of steps of any run is the final world of a run |
| Replace.OldGoesAfterClone | cmd/ck8s/k8s.go:236-243 | The same where the replacement ends |
| Replace.ReplaceSwaps | cmd/ck8s/k8s.go:221-248 | A successful replacement swaps one machine for its clone in the map and keeps every per-type count, whatever exit codes get lost; without an image the clone equals the original; file and state follow unless the last apply's exit code was lost |
| Guarantees.SkewInvariant | client/cluster.go:276-292 | Under a fixed server version no sequence of commands brings in a machine whose kubelet is newer than the server or more than two minors older; only load balancers run without a kubelet |
| Guarantees.CloneWithoutKubelet | api/image.go:41-46 | Cloning with an image where the type's images hold no kubelet changes nothing and never succeeds; an image that is found ends in the missing version |
| Guarantees.DeployAfterAllAnswered | client/cluster.go:140-173 | Deployment is reached only after every machine of the Terraform state answered; the state is the inventory, and equal to the configuration unless the exit code of the Terraform apply was lost |
| Guarantees.TornFileStops | client/config.go:324-340 | Once the tfvars file is torn every command fails at reading it and changes nothing |
| Guarantees.WriteTears | client/config.go:343-360 | Writing it can tear it, and fails then |
| Images.SupportedExactly | api/image.go:33-51 | The skew test accepts exactly the kubelets zero to two minors behind, and its unsigned subtraction never wraps |
| Images.Lookup | api/machine.go:159-170 | An image is found exactly if the provider has one of that name |
| Images.LookupFirst | api/machine.go:159-170 | No image before the one found has the name |
| PlanCheck.AcceptedExactly | runner/terraform.go:123-143 | For every summary line the phrase is found exactly if nothing changes or is destroyed and the additions are a multiple of ten |
| PlanCheck.IntendedBelowTen | runner/terraform.go:123-126 | Below ten additions the test is the intended one |
| PlanCheck.TenAdditionsPass | runner/terraform.go:136-143 | Ten additions pass |
| PlanCheck.DecimalReads | runner/terraform.go:130-143 | The numbers of the summary line read back |
| ClusterClient.Cluster.Machines | api/exoscale/tfvars.go:32-46 | The current cluster's map is allocated lazily and changes nothing visible |
| ClusterClient.Cluster.AddMachine | api/exoscale/tfvars.go:48-68 | A given name is used, a random one only without; a taken name is refused without effect; the other cluster's map never changes |
| ClusterClient.Cluster.RemoveMachine | api/openstack/tfvars.go:70-73 | Only the named machine of the current cluster goes; a missing one is no error |
| ClusterClient.Client.TerraformPlanNoDiff | client/cluster.go:589-604 | Does what the plan script does in every world |
| ClusterClient.Client.TerraformApply | client/cluster.go:531-563 | Does what the apply script does in every world |
| ClusterClient.Client.AddMachine | client/cluster.go:295-340 | Check, build, validate and add, stopping at the first error |
| ClusterClient.Client.CloneMachine | client/cluster.go:342-385 | Check, find, build and validate only with an image, and add under the new name |
| ClusterClient.Client.Join | client/cluster.go:181-209 | Apply, look up, wait, join and update the load balancer |
| ClusterClient.Client.ResetNode | client/cluster.go:424-446 | Look up, reset over SSH, delete the node |
| ClusterClient.Client.RemoveNode | client/cluster.go:448-496 | Check, ask, drain if seen, reset, drop from the map, apply and update the load balancer |
| ClusterClient.Client.Apply | client/cluster.go:140-173 | Remote workspace, apply, wait for every machine of the state in some order, deploy |
| ClusterClient.Client.ReplaceNode | cmd/ck8s/k8s.go:221-248 | Clone, join, then remove, stopping at the first error |
| ClusterClient.Client.AddNode | cmd/ck8s/k8s.go:128-168 | Add, then join; after a success the machine is in map, file and state under the given name, or a random one without, with the type, size, settings and image asked for |
| ClusterClient.Client.CloneNode | cmd/ck8s/k8s.go:183-206 | Clone, then join |
| Errors.IsMulti | runner/standard.go:181-201 | A multierror is every error it holds, through its unwrapping chain |
| Errors.IsAppend | runner/standard.go:135-153 | Appending to the error chain adds what the new error is and loses nothing |
| StandardRunner.SucceedsIffNothingReported | runner/standard.go:101-205 | The condition for success is exactly that none of the error sources contributes |
| StandardRunner.ReportedExactly | runner/standard.go:101-232 | For any command and sentinel, on the child itself: it is among the reported errors exactly if it is in what kept the command from starting, or a signal was caught, or else handler or reads failed with it, or the exit code handler or the wait did |
| StandardRunner.StandardRunner.Execute | runner/standard.go:101-205 | No error exactly under that condition; an error is, for every sentinel, exactly the errors reported, and in particular keeps the wait error and the exit code handler's error; captured output is the child's complete output in order, whatever the handler read; the record grows by the signals of the run |
| StandardRunner.StandardRunner.HandleOutput | runner/standard.go:132-153 | Handler and drains copy each stream completely and collect exactly their errors |
| StandardRunner.TeeReader.ReadAll | runner/standard.go:142-153 | Draining ends at the end of the stream with the copy holding all of it |
| StandardRunner.StandardRunner.HandleWaitError | runner/standard.go:212-232 | Handled exactly if the exit code is unknown or its handler succeeds; a failing handler's own error is returned |
| StandardRunner.StandardRunner.Background | runner/standard.go:52-68 | A failure carries the reported errors and everything captured |
| StandardRunner.StandardRunner.OutputTo | runner/standard.go:71-88 | A command with its own stdin is refused without a trace; otherwise result, record and terminal as of a run |
| StandardRunner.StandardRunner.Run | runner/standard.go:42-48 | The two modes succeed and record signals alike but for the stdin refusal; only the terminal shows output, and all of it |
| Tools.NotFoundReported | runner/kubectl.go:66-88 | The reported errors include "node not found" exactly if the command started, no signal is on record and all of stderr was read and says so |
| Tools.NodeExists | client/cluster.go:413-421 | Answers "no" without error exactly in that case, so an interrupted run never does |
| Tools.OtherNotFoundAlsoCounts | runner/kubectl.go:81-83 | Any text on stderr with the phrase in it makes the reported errors include "node not found", whatever the exit code |
| Tools.PlanNoDiff | runner/terraform.go:106-146 | Passes exactly if undisturbed and the exit was 0, 2 with the phrase, or undeterminable |
| Tools.PlanPassesExactly | runner/terraform.go:130-143 | With exit code 2 and a summary line: passes exactly for multiples of ten additions only |
| Tools.DiffReported | runner/terraform.go:130-143 | The reported errors include "plan has diff" exactly if the command started, the wait failed with exit code 2 and the phrase is not in the output |
| Tools.CheckNoDiff | client/cluster.go:589-604 | The client returns an error that is "plan has diff" exactly in that case, and any other error under an explanation |
| Signals.AlwaysConserved | runner/signal.go:18-44 | Over all interleavings each delivered signal is dropped, buffered, in hand or recorded, once; each recorded one forwarded or about to be, once |
| Signals.StartConserved | runner/signal.go:18-44 | So in every state reachable from the start |
| Signals.GoroutineGoesOn | runner/signal.go:23-36 | In every phase of its run the goroutine takes what is in the channel, records what it holds and forwards what it recorded |
| Signals.DeliveryGoesOn | runner/signal.go:18-21 | A signal sent to a waiting run goes into an empty channel and is dropped at a full one |
| Signals.RunGoesOn | runner/standard.go:163-184 | The run itself is never held up: it begins, stops the delivery, closes and checks, and fails exactly if something is on record |
| Signals.ForwardedWhileWaiting | runner/standard.go:90-99 | A signal sent to a run that waits can be recorded and forwarded while it still waits |
| Signals.Drains | runner/signal.go:23-36 | What a goroutine holds and what is in its channel can always be brought to record and child by its own steps |
| SignalRuns.SignalsOfRun | runner/standard.go:163-184 | The signals and late signals of a run are what an interleaving records before and after its check; the run fails by a signal exactly if the runner counts one |
| Signals.RecordOnlyGrows | runner/standard.go:90-99 | The record only grows and conclusions of finished runs stay |
| Signals.FailedForGood | runner/standard.go:177-184 | After a run that failed because of a signal every later one fails |
| Signals.RecordedFailsAll | runner/standard.go:181-184 | With something on record every check to come fails |
| Signals.LateSignals | runner/signal.go:41-44 | After delivery stopped, recorded plus outstanding signals of a run stay constant |
| Signals.AtMostTwoLate | runner/signal.go:18-44 | At most two signals of a run are recorded after its check |
| Signals.LateSignalPasses | runner/standard.go:173-184 | A signal still buffered at the check lets its run pass |
| Signals.LateSignalFailsNext | runner/standard.go:173-184 | Recorded afterwards, it fails the next run, which received none |
| SSHAgent.ParseOutput | runner/sshagent.go:108-140 | The scanning loop computes the specified result, including the run-time error of slicing an empty part |
| SSHAgent.ParseUndoesPrint | runner/sshagent.go:104-140 | For socket and pid without spaces and line breaks the printed output parses to them exactly if neither is empty and the lines fit the scanner's buffer; otherwise there is an error |
| SSHAgent.AcceptedAssignsBoth | runner/sshagent.go:111-137 | Accepted output has, for each key, a last line that assigns a non-empty value, and these values are returned |
| SSHAgent.SSHAgentRunner.Start | runner/sshagent.go:99-145 | Returns the parsed agent exactly if the runner has nothing to report, else an error with whatever was launched |
| SSHAgent.SuccessParses | runner/sshagent.go:127-139 | The runner succeeds on a start exactly if it has nothing else to report and the output parses |
| SSHAgent.SSHAgentRunner.Run | runner/sshagent.go:50-69 | The bracket's complete effect on the machine, the shared map and the record of signals, for all outcomes; it succeeds exactly if start, key and command do |
| SSHAgent.BracketSucceedsExactly | runner/sshagent.go:54-68 | On the three children themselves: a bracket succeeds exactly if all of them do without a signal, and the wrapped command runs exactly if the first two do |
| SSHAgent.Ansible.RunPlaybook | runner/ansible.go:46-59 | A playbook runs under a bracket and over the shared map itself, with its own arguments, and succeeds exactly if agent, key and playbook do |
| SSHAgent.Ansible.JoinCluster | runner/ansible.go:78-84 | Two brackets, the second exactly if the first succeeded; success exactly if both do |
| SSHAgent.BothAreSessions | runner/ansible.go:78-84 | One playbook, or two of which the second runs only after the first, are sessions, so the results on sessions hold for them |
| SSHAgent.SessionWatched | runner/sshagent.go:50-69 | Over any sequence of commands agents whose start returned no error come one at a time, keys and commands come only under such an agent with its socket, and the agents left alive are exactly those listed |
| SSHAgent.NoneSurvivesExactly | runner/sshagent.go:54-62 | No agent survives a session exactly if each one launched came from an `ssh-agent` that ran undisturbed, with no signal on record, and printed output that parses, and its kill exited with 0 |
| SSHAgent.SignalLeavesAgents | runner/sshagent.go:54-57 | With a signal on record every agent launched stays |
| SSHAgent.KillsMatchStarts | runner/sshagent.go:54-62 | Every agent whose start returned no error is the target of exactly one kill |
| SSHAgent.RanUnderOwnAgent | runner/sshagent.go:14-17 | Each command sees the socket of the agent started for it, not yet killed, whatever stale value the map held |
| Names.TerraformOutput.GetMachinesState | api/openstack/output.go:118-134 | Filling in any order: every trimmed name is stored, and each stored value comes from an entry trimmed to its name |
| Names.NodesComeBack | api/openstack/output.go:84-101 | For every cluster name and configuration, and whatever is reported of load balancers, the states are exactly the configured masters and workers with their types and addresses |
| Names.NamesComeBack | api/safespring/output.go:14-31 | Where load balancers are machines, exactly all configured machines |
| Names.TerraformOutput.Machine | api/openstack/output.go:103-113 | A master or worker is found exactly under its configured name |
| Names.TerraformOutput.MachineOrLoadBalancer | api/safespring/output.go:33-43 | Every machine is found exactly under its configured name |
| Names.FillsExactly | terraform/modules/openstack/vm/output.tf:19-25 | Module output makes the filling deterministic and collision free |
| Hosts.HostsAreInstances | client/ansibleinventory.go:11-85 | Where load balancers are machines: for every node type the hosts read back from the inventory are exactly the instances Terraform reports, with their addresses, and exactly the configured machines under the names kubectl gives their nodes |
| Hosts.NodeHostsAreInstances | client/ansibleinventory.go:11-85 | Where they are not, whatever Terraform reports of them: so for masters and workers, and no host is listed as a load balancer |
| Names.BareNamesComeBack | terraform/aws/modules/kubernetes-cluster/output.tf:1-9 | Unprefixed names come back exactly if none starts with the cluster name and a dash |
| Inventory.MachinesByNodeType | client/ansibleinventory.go:92-100 | The loop returns exactly the machines of the type |
| Inventory.OrderIrrelevant | client/ansibleinventory.go:11-16 | The sorted keys do not depend on the iteration order |
| Inventory.LessExactly | client/ansibleinventory.go:11-16 | The keys come in lexicographic order by character |
| Inventory.RenderIsDeterministic | client/ansibleinventory.go:87-132 | The text does not depend on the iteration orders |
| Inventory.ReadUndoesRender | client/ansibleinventory.go:11-85 | Reading the text gives back the masters, workers and load balancers with their addresses, each group in key order |
| InventoryVars.VariablesComeBack | client/ansibleinventory.go:28-57 | Reading the variables gives back every setting under its own key, and no line for those left out when empty |
| InventoryVars.FixedVariables | client/ansibleinventory.go:19-26 | The variables common to all inventories are there |
| InventoryVars.ChildrenComeBack | client/ansibleinventory.go:75-84 | The nodes are the masters and workers, and the groups behind an internal load balancer those configured |
| Inventory.ExactlyOneGroup | client/ansibleinventory.go:59-85 | Each machine is in the group of its type once and in no other |
| Initialisation.NeverOverwrites | client/init.go:47-80 | Whatever fails, no existing file changes |
| Initialisation.FailuresReported | client/init.go:47-80 | The command stops at the first call that fails and reports it, and refuses an invalid configuration before any call |
| Initialisation.Idempotent | client/init.go:47-80 | After a success any further command leaves all files as they are |
| Initialisation.EncryptsUnderConfig | client/init.go:82-106 | Every encryption happens with the SOPS config in place, and new keys and secrets are encrypted under it |
| Initialisation.OrderIrrelevant | cmd/ck8s/init.go:63-90 | Either order of the clusters succeeds alike, and if so gives the same shared files up to randomness and the same set of files |
| Initialisation.CompletesExactly | client/init.go:82-159 | From any directory an undisturbed command succeeds exactly if the SOPS config is not torn or nothing is left to encrypt, and completes the set exactly if no file was torn and each key pair was whole or absent |
| Initialisation.ContentsAsGiven | client/init.go:82-240 | An undisturbed success leaves in each new shared file what the cluster is configured with, secrets encrypted under the SOPS config |
| Initialisation.KeyPairsMatch | client/init.go:129-156 | Whatever fails, a key pair that was not there and is there as a whole afterwards was made from one key, the private half encrypted under the SOPS config |
| Initialisation.HalfPairHappens | client/init.go:142-156 | A failure between the two writes leaves half a pair |
| Initialisation.HalfPairStays | client/init.go:116-127 | No later command adds the other half |
| Initialisation.ConfigInitializer.Init | client/init.go:47-80 | Does what the script of steps does for every oracle |
| Initialisation.ConfigInitializer.InitSSHKeyPair | client/init.go:108-159 | Both existence checks, generation, encryption and the two writes |
| Initialisation.Directory.MkdirAllIfNotExists | client/util.go:28-43 | Error, present or absent with the directory made |
| Initialisation.InitCommand | cmd/ck8s/init.go:63-90 | Service cluster, then workload cluster, stopping at the first error |
| MachineFactory.Cluster.CloneMachine | client/cluster.go:356-384 | With an image a new object of the same type and size, the looked-up image and settings shared with nobody; without one the same object twice; nothing else changes |
| MachineFactory.Factory.FromExisting | api/machine.go:47-81 | A fresh machine and fresh settings copied through JSON |
| MachineFactory.Factory.Build | api/machine.go:115-141 | The named image or an error; settings decoded into a new object |
| MachineFactory.DecodeMachine | api/machine.go:172-201 | New settings of the provider's type, or nothing where the provider has none |
| MachineFactory.LookupImage | api/machine.go:159-170 | The loop finds the first image of the name |
| MachineFactory.CopiedExactly | api/machine.go:57-75 | A 64-bit integer survives the copy exactly if 53 significant bits are enough |
| MachineFactory.NearestIsNearest | api/machine.go:57-75 | Any other integer becomes the nearest float, at a tie the even one |
| MachineFactory.CloneSeesTheSame | api/machine.go:57-75 | Terraform sees the same settings exactly if both numbers survive |
| MachineFactory.NotBeyond | api/machine.go:57-75 | 2^53 + 1 does not survive |
| WaitForSSH.MachineClient.WaitForSSH | client/machine.go:95-118 | Succeeds exactly if the first attempt that connects starts in time; at most one attempt per second and one more |
| WaitForSSH.AllAttemptsUsed | client/machine.go:102-115 | The bound is reached when every attempt is refused at once |
| WaitForSSH.TimeAddsUp | client/machine.go:102-115 | An attempt starts after the time of all earlier ones, a second for each and what the sleeps took longer |

## Left out

- Terraform, Ansible, kubeadm, kubectl, sops and ssh themselves: one step each, with a stated effect and arbitrary failure; drained pods and playbook contents are not modelled.
- AWS in the lifecycle: the node asked about is not the node drained and deleted, so claims about node identity would not hold.
- Reconcile.SuccessReconciles: not where the exit code of the last apply is lost; `LostAnswers.LostApplyKeepsMachine` is such a run.
- Reconcile.PendingStops: not where the plan's exit code is lost; `LostAnswers.LostPlanAppliesAll` is such a run.
- Reconcile.PendingUntilApply: not where a plan's exit code is lost; `LostAnswers.LostPlanAppliesAll` is such a run.
- Reconcile.CheckIsExactWhenReachable: not where a plan's exit code was lost before, which can put two machines on the list.
- KeptNodes.NeverRecreated: not where an apply or a node deletion lost its exit code; `LostAnswers.LostApplyJoinsDoomed` and `LostAnswers.LostDeletionKeepsNode` are such runs.
- Replace.ReplaceKeepsProvisioned: the clone's random name is new to the Terraform state; not where machines wait to be changed or destroyed and a plan's exit code is lost, see `LostAnswers.LostPlanAppliesAll`.
- Replace.ReplaceKeepsLive: the clone's random name is new to the Terraform state; not where the join's exit code is lost, see `LostAnswers.LostJoinCostsNode`.
- Terraform resources that belong to no machine: only how many are to be created, changed or destroyed; a partial apply leaves no more of each, and no command adds to them.
- Guarantees.SkewInvariant: assumes provider image lists with distinct, non-empty names; an image is found by its name, because the recorded file holds no kubelet version.
- Guarantees.DeployAfterAllAnswered: the machines waited for are those of the state after the apply, in any order; with the apply's exit code lost the state may differ from the configuration.
- Validation of a configuration is a step that may fail; its rules are not modelled.
- Unknown node types, which the factories would answer with a run-time error, cannot be written in the model.
- A changed machine counts as created anew; whether Terraform updates it in place shows only in the plan's numbers.
- Upgrade, Destroy, status, flavours and defaults: no new state or only finite data.
- Command line flags, logging and prompts.
- StandardRunner.StandardRunner.Execute: pipe capacity, deadlock between the two streams, and failing writes to the terminal are not modelled; the data race on the record itself is taken as atomic.
- Signals.AlwaysConserved: forwarding to a child that has already exited counts as forwarded.
- SSHAgent.ParseUndoesPrint: text is a sequence of bytes.
- SSHAgent.SSHAgentRunner.Run: an agent whose start returns no error is the one printed; a run-time error in the parser ends the program and is followed only as a start that failed; a kill that does not exit with 0 is taken not to have ended the agent.
- The Terraform client's shared environment map: every command writes the same two values.
- Inventory.ReadUndoesRender: names and addresses without spaces and line breaks, a cluster name that does not look like a header or comment; quotes inside variable values are read back as they are.
- Initialisation.OrderIrrelevant: both clusters of an environment put the same text into the shared files, as all flavours do.
- MachineFactory.CopiedExactly: settings are integers; fractional numbers in a hand-edited file are not modelled, and a conversion out of range gives the smallest integer, as on amd64.
- The loops of the other providers' outputs and tfvars, which repeat those listed.
- HCL and YAML encoding, `infra.json`, SSH sessions, terminals and stdin piping.
