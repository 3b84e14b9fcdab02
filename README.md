# A verified model of the kubernetes CLI tool's core

This project models the core of a small command-line client for a Kubernetes
cluster, and proves properties of that model. The client can:

- deploy and delete the Pods, Services and Deployments of a multi-document
  definition file;
- run a shell command in a pod;
- list files in a pod;
- copy a file into or out of a pod as a tar stream over an exec channel;
- check that the cluster answers.

The cluster, the exec stream, the archive library, the YAML parser and the
local file system are not modelled in full. Each is an abstract stand-in:

- `KubeClient.Cluster` logs every request and answers each from a fixed answer
  function of (position, request).
- `KubeClient.Channel` is an exec stream whose remote side is a script of
  stdout and stderr frames followed by an exit status.
- `Helpers.DefinitionFiles` gives the documents, or the parse error, that
  reading a path yields.
- `Helpers.LocalFs` is a set of existing directories and a set of paths where
  creating a directory fails.
- Building and extracting an archive are function parameters. The archive is
  an opaque byte sequence.

Modules follow the source files:

| module | source file |
|---|---|
| `Values` | Python values, `str.join`, `str.encode` (UTF-8) |
| `Exceptions` | `custom_exceptions/exception.py` and the built-in exceptions that reach callers |
| `KubeClient` | the Kubernetes client, as a stand-in |
| `KubeObjects` | `kube_objects/obj_interface.py` |
| `Resources` | the `create`/`delete` of `pod.py`, `service.py`, `deployment.py` |
| `Pod`, `Service`, `Deployment` | `kube_objects/pod.py`, `service.py`, `deployment.py` |
| `PosixPath` | `os.path.split` and `os.path.basename` |
| `PodFileTransfer` | `kube_objects/pod_file_transfer.py` |
| `Helpers` | `helper_functions/helpers.py` |
| `Funcs` | `kube_functions/funcs.py` |
| `CommandExecutor` | `command_mapper/k8s_command_executor.py` |
| `K8sManager` | `command_mapper/k8s_manager.py` and the two calls of `kube.py` |

## How it is modelled

State the source changes in place is held in classes whose methods carry
`modifies` clauses:

- the caches of a resource object (`KubeObjects.KubeObject`);
- the shared body and parameter dicts (`KubeObjects.Dict`);
- the exec channel, the cluster's request log, the temporary archive file
  (`PodFileTransfer.TempFile`), the local directories;
- the command registry (`CommandExecutor.Executor`), the singleton cache and
  the function manager's kube-config.

The source's loops are `while` loops with invariants:

- the drain loop of `exec_bash`;
- the upload and download pumps;
- the document loop of deploy and delete.

Each method is proved against a specification function or a stated property:

- Each getter of a resource object follows a function on a `Fields` snapshot
  (`ReadNamespace`, `ReadName`, ...).
- `create` and `delete` follow `CreateStep` and `DeleteStep`.
- Deploying and deleting a file follows `Funcs.Walk`. This is the in-order walk
  of the documents that stops at the first failure.
- Executing an operation follows `CommandExecutor.Dispatch`.

Python semantics the code relies on are written out:

- A custom exception built with other than two arguments raises `TypeError`
  (`Exceptions.Raise`).
- `str()` of a custom exception is the text of the tuple of its two arguments,
  each shown by `repr` (`Exceptions.ExcText`), since the class defines no
  `__str__`.
- `.get` on anything but a dict raises `AttributeError`.
- A `filter` object is always truthy.
- A `StopIteration` that leaves a generator body becomes `RuntimeError`.
- The singleton cache returns the first instance and ignores later arguments.
- The parameters dict handed to the manager is the caller's own object, not a
  copy.

Where the documented design and the code differ, the model follows the code:

- An unknown operation is not reported as an unsupported operation. It escapes
  as `TypeError` (see Findings).
- A document of an unknown kind is not reported as an unsupported kind. It ends
  the walk with `RuntimeError` (see Findings).
- A failure to build or send the upload archive is printed, not raised.
- The exec stream is closed after a normal drain only.

## Model

| member | source | states |
|---|---|---|
| Exceptions.Raise | custom_exceptions/exception.py:1-11 | the custom exception is built exactly when two arguments are given, carrying them as message and value; any other arity raises `TypeError` |
| Exceptions.ArgsText | custom_exceptions/exception.py:1-11 | the text of an exception whose arguments are `(message, value)`: an opening parenthesis, the `repr` of the message, a comma and a space, the `repr` of the value, a closing parenthesis |
| Exceptions.ExcText | custom_exceptions/exception.py:1-11 | a custom exception keeps both constructor arguments and defines no `__str__`, so `str(e)` is the text of the tuple of its message and value |
| Values.ReprOfPlain | command_mapper/k8s_manager.py:61 | a string with no quote, backslash or control character is shown by `repr` between single quotes and otherwise unchanged |
| Values.EncodeAppend | kube_objects/pod_file_transfer.py:93 | encoding the stdout reads one at a time gives the encoding of their concatenation |
| Values.EncodeLength | kube_objects/pod_file_transfer.py:92-93 | a string's UTF-8 encoding is at least as long as the string, and exactly as long only when every character is ASCII |
| KubeObjects.GetAttr | kube_objects/obj_interface.py:41 | `.get` succeeds exactly on a dict, giving the entry or `None`; on anything else it raises `AttributeError` |
| KubeObjects.ExplicitValuesWin | kube_objects/obj_interface.py:34-62 | a name or namespace given explicitly is returned unchanged and nothing is read from the body |
| KubeObjects.NamespaceFromMetadata | kube_objects/obj_interface.py:40-41 | with no explicit namespace and dict metadata, the namespace is the metadata's if truthy, else "default", and never `None` |
| KubeObjects.MissingMetadataRaises | kube_objects/obj_interface.py:24-62 | a body without "metadata" makes reading the namespace or the name raise `AttributeError` |
| KubeObjects.NoBodyYieldsNone | kube_objects/obj_interface.py:24-82 | with no body and nothing explicit every getter yields `None` and changes nothing |
| KubeObjects.CachedValuesIgnoreBody | kube_objects/obj_interface.py:24-82 | once a getter has cached a value other than `None`, later reads return it whatever the body has become |
| KubeObjects.NamespaceSettled | kube_objects/obj_interface.py:40-42 | after a successful namespace read, a second read returns the same value and changes nothing |
| KubeObjects.NameSettled | kube_objects/obj_interface.py:60-62 | after a successful name read, a second read returns the same value and changes nothing |
| KubeObjects.ReadMetadata | kube_objects/obj_interface.py:24-32 | reading the metadata changes only the metadata cache and returns what that cache then holds; a filled cache or a missing body leaves everything as it was |
| KubeObjects.ReadNamespace | kube_objects/obj_interface.py:34-42 | reading the namespace leaves the body, the name cache and the spec cache alone; on success the cache holds the value returned, which is truthy when it came from a body; the only failure is `AttributeError`, with the cache left empty |
| KubeObjects.ReadName | kube_objects/obj_interface.py:54-62 | reading the name leaves the body, the namespace cache and the spec cache alone; on success the cache holds the value returned; the only failure is `AttributeError`, with the cache left empty |
| KubeObjects.ReadSpec | kube_objects/obj_interface.py:74-82 | reading the spec changes only the spec cache and returns what that cache then holds; a filled cache or a missing body leaves everything as it was |
| KubeObjects.WriteSpec | kube_objects/obj_interface.py:84-94 | setting the spec leaves the metadata, namespace and name caches alone and never adds or removes the body |
| KubeObjects.SpecWriteThrough | kube_objects/obj_interface.py:84-94 | the spec setter writes `body["spec"]` and the cache, keeps every other body entry, and does nothing without a body |
| KubeObjects.KubeObject.constructor | kube_objects/obj_interface.py:9-14 | the body is shared, the explicit namespace and name fill their caches, metadata and spec start empty |
| KubeObjects.KubeObject.Metadata | kube_objects/obj_interface.py:24-32 | the new caches and the result are those of `ReadMetadata` on the old state |
| KubeObjects.KubeObject.Namespace | kube_objects/obj_interface.py:34-42 | the new caches and the result (or the raised error) are those of `ReadNamespace` on the old state |
| KubeObjects.KubeObject.SetNamespace | kube_objects/obj_interface.py:44-52 | only the namespace cache changes, to the given value |
| KubeObjects.KubeObject.Name | kube_objects/obj_interface.py:54-62 | the new caches and the result are those of `ReadName` on the old state |
| KubeObjects.KubeObject.SetName | kube_objects/obj_interface.py:64-72 | only the name cache changes, to the given value |
| KubeObjects.KubeObject.Spec | kube_objects/obj_interface.py:74-82 | the new cache and the result are those of `ReadSpec` on the old state |
| KubeObjects.KubeObject.SetSpec | kube_objects/obj_interface.py:84-94 | the shared body dict is changed in place as `WriteSpec` says |
| Resources.CreateFailure | kube_objects/pod.py:29-42 | 409 gives `ResourceAlreadyExist`, 422 gives `InvalidDefinitionFile`, each carrying the API reason; every other status re-raises the API error unchanged |
| Resources.DeleteFailure | kube_objects/pod.py:52-60 | 404 gives `KubernetesResourceWasNotFound` carrying the API reason; every other status re-raises the API error unchanged |
| Resources.CreateStep | kube_objects/pod.py:20-42 | the body and the spec cache are untouched; nothing is sent exactly when the namespace cannot be read; otherwise exactly one create request, for the namespace read and the body; the call ends normally only if the cluster accepted it, and a refused create always raises |
| Resources.DeleteStep | kube_objects/pod.py:44-60 | the body and the spec cache are untouched; nothing is sent exactly when the name or then the namespace cannot be read; otherwise exactly one delete request for the name and namespace read; the call ends normally exactly when the cluster accepted it |
| Resources.CreateStepPassesOtherErrors | kube_objects/pod.py:28-42 | an API error other than 409 and 422 reaches the caller unchanged without the name being read |
| Resources.DeleteStepPassesOtherErrors | kube_objects/pod.py:51-60 | an API error other than 404 reaches the caller unchanged |
| Resources.Create | kube_objects/pod.py:20-42 | the request log, the object's caches and the outcome are those `CreateStep` gives; the body is untouched |
| Resources.Delete | kube_objects/pod.py:44-60 | the request log, the object's caches and the outcome are those `DeleteStep` gives; the body is untouched |
| Pod.New | kube_objects/pod.py:13-18 | a pod's namespace and name reach the base class in their own places |
| Pod.ShellCommand | kube_objects/pod.py:73 | the command vector has three elements and ends with the command itself |
| Pod.ExecStreamRequest | kube_objects/pod.py:93-108 | the stream is opened for the pod's name and namespace and the given command, with stdin, stdout and stderr on and no tty |
| Pod.ExecResult | kube_objects/pod.py:62-91 | the command ends normally exactly when the stream opened and the exit status is 0; an error other than an API error while opening propagates unchanged |
| Pod.ExecFailsIffNonZero | kube_objects/pod.py:88-91 | a non-zero exit status raises `FailedToExecuteCommand` with the stderr chunks joined by ", " |
| Pod.OpenFailureIsNotFound | kube_objects/pod.py:75-80 | an API error while opening the stream always becomes `KubernetesResourceWasNotFound` with the API's reason |
| Pod.PollRound | kube_objects/pod.py:83-86 | a round on an open stream makes progress and takes a non-empty stderr chunk that starts what was still unread, or none |
| Pod.DrainStream | kube_objects/pod.py:81-86 | the loop ends with the stream closed and the collected chunks, all non-empty, together exactly what was still to be read on stderr |
| Pod.ExecBash | kube_objects/pod.py:62-91 | one stream request is sent; the outcome is `ExecResult` of the reply; an opened stream is closed exactly once, gets nothing on stdin, and the kept stderr is everything the command wrote to stderr |
| Pod.CreateDirectory | kube_objects/pod.py:110-119 | runs exactly `mkdir -p <path>` and fails exactly as that command does |
| PosixPath.TailStart | kube_objects/pod_file_transfer.py:37 | the last component starts right after a slash, or at the start, and holds no slash |
| PosixPath.Basename | kube_objects/pod_file_transfer.py:54 | the basename is a suffix of the path and holds no slash |
| PosixPath.BasenameFollowsSlash | kube_objects/pod_file_transfer.py:54 | unless the basename is the whole path, the character before it is a slash |
| PosixPath.Split | kube_objects/pod_file_transfer.py:37 | the tail is the basename; the head is a prefix of the path that does not overlap the tail |
| PosixPath.SplitShape | kube_objects/pod_file_transfer.py:37 | the path is head, a run of slashes, then tail; the tail is the basename; the head is empty exactly when the path has no slash, ends in a slash only when it is all slashes, and keeps every slash when all before the tail is slashes |
| PodFileTransfer.UploadCommand | kube_objects/pod_file_transfer.py:19 | the upload command has five elements and unpacks into the destination |
| PodFileTransfer.DownloadCommand | kube_objects/pod_file_transfer.py:37-38 | the download command is `tar cmf - -C <dir> <name>`, where the directory is a prefix of the source, the name its basename, and only slashes lie between them |
| PodFileTransfer.CreateTarBuffer | kube_objects/pod_file_transfer.py:45-55 | the archive of the source, stored under its basename, is written into the buffer and the buffer rewound; a failure leaves the buffer as it was |
| PodFileTransfer.StreamToPod | kube_objects/pod_file_transfer.py:57-77 | the pod receives exactly the bytes read from the buffer, in order, in chunks of 1 to 1024 bytes; the count is their number; an open stream gets the whole rest of the buffer, a closed one nothing; `close()` is called once |
| PodFileTransfer.SaveStdout | kube_objects/pod_file_transfer.py:90-93 | whatever stdout holds is read and its encoding appended to the buffer |
| PodFileTransfer.ForwardStderr | kube_objects/pod_file_transfer.py:95-96 | stderr is read and dropped; stdout still to be read is untouched |
| PodFileTransfer.DownloadRound | kube_objects/pod_file_transfer.py:88-96 | a round on an open stream makes progress, and the buffer gains the encoding of the stdout text it read |
| PodFileTransfer.DownloadRounds | kube_objects/pod_file_transfer.py:87-96 | when the loop ends the stream is closed and the buffer gains the encoding of everything the pod wrote to stdout, in order |
| PodFileTransfer.StreamFromPod | kube_objects/pod_file_transfer.py:79-98 | the buffer gains the encoding of all stdout; the count is the number of characters, at most the bytes written and equal only for ASCII; `close()` is called once |
| PodFileTransfer.ExtractTarToDestination | kube_objects/pod_file_transfer.py:100-110 | the buffer is rewound and its whole contents extracted into the destination |
| PodFileTransfer.UploadArchive | kube_objects/pod_file_transfer.py:21-27 | the pod receives exactly the archive, in chunks of 1 to 1024 bytes, and the stream is closed once; a failure to build the archive is caught and leaves the stream open and untouched |
| PodFileTransfer.CopyFileToPod | kube_objects/pod_file_transfer.py:8-27 | opening the upload stream is outside the `try`, so its failure propagates; after it, the pod receives exactly the archive or nothing |
| PodFileTransfer.CopyFileFromPod | kube_objects/pod_file_transfer.py:29-43 | the stream is opened for the split source path; the archive extracted is the encoding of all stdout; the stream is closed once and gets nothing on stdin |
| Deployment.New | kube_objects/deployment.py:13-15 | as written, the namespace cache holds the name argument and the name cache the namespace argument |
| Deployment.NewIntended | kube_objects/deployment.py:13-15 | each argument in its own cache |
| Deployment.SwappedNamespace | kube_objects/deployment.py:14 | a deployment built as written with namespace "prod" and name "web" reports namespace "web" and name "prod"; the intended constructor reports "prod" |
| Deployment.IntendedKeepsExplicitValues | kube_objects/deployment.py:13-15 | the intended constructor's getters return the explicit values, and it builds the same state as the written one exactly when name and namespace are equal |
| Deployment.CreateMessages | kube_objects/deployment.py:29-39 | 409 and 422 give the deployment's own messages with the API reason; other statuses re-raise |
| Deployment.DeleteMessages | kube_objects/deployment.py:52-57 | 404 gives the deployment's not-found message with the API reason; other statuses re-raise |
| Service.New | kube_objects/service.py:10-15 | a service's namespace and name reach the base class in their own places |
| Service.CreateMessages | kube_objects/service.py:29-39 | 409 and 422 give the service's own messages ("invalid" for 422) with the API reason; other statuses re-raise |
| Service.DeleteMessages | kube_objects/service.py:52-57 | 404 gives the service's not-found message with the API reason; other statuses re-raise |
| Helpers.HasYamlExtension | helper_functions/helpers.py:33 | an accepted path has at least four characters, ends in "l", and has a dot four or five characters from its end |
| Helpers.YamlExtensionExamples | helper_functions/helpers.py:33 | ".yaml" and ".yml" are accepted as spelled, upper case and other extensions are not, and no path shorter than four characters is accepted |
| Helpers.LoadYaml | helper_functions/helpers.py:18-42 | the documents are returned exactly when the extension is right, the file exists and parses; the extension is checked before existence; each failure has its own exception |
| Helpers.SupportedKindsAreExactlyThree | helper_functions/helpers.py:15 | the supported kinds are exactly "Pod", "Service" and "Deployment", each naming its class |
| Helpers.KindOf | helper_functions/helpers.py:59-60 | as written, a kind is found exactly for a dict whose kind names a supported class |
| Helpers.KindOfIntended | helper_functions/helpers.py:45-69 | as documented, a dict of unknown kind raises `KubernetesObjectIsNotSupportedYet` carrying the kind |
| Helpers.UnsupportedBranchUnreachable | helper_functions/helpers.py:59-69 | as written, no document yields the custom exception; a dict of unknown kind gives `StopIteration`; otherwise the written and documented lookups agree |
| Helpers.ConfigMapIsNotReported | helper_functions/helpers.py:59-69 | a "ConfigMap" document gives `StopIteration` as written and `KubernetesObjectIsNotSupportedYet` as documented |
| Helpers.Escape | helper_functions/helpers.py:82-85 | a `StopIteration` leaving the generator body becomes `RuntimeError`; every other exception passes unchanged |
| Helpers.FromDocument | helper_functions/helpers.py:62 | an object built from a document has the document as its body, so its metadata and spec getters read the document's entries |
| Helpers.ConvertDictToKubeObject | helper_functions/helpers.py:45-69 | a fresh object of the kind `KindOf` names, whose body is a fresh dict holding the document, with nothing explicit; otherwise the lookup's error |
| Helpers.MakeDirs | helper_functions/helpers.py:98-100 | it succeeds exactly when the directory exists afterwards; at most that directory is added; a failure changes nothing and happens only at a failing path |
| Helpers.MakeDirsIdempotent | helper_functions/helpers.py:98-100 | creating a directory twice is the same as once, and the second time always succeeds |
| Helpers.CreateDirectoryFailure | helper_functions/helpers.py:101-102 | an `OSError` becomes `FailedToCreateLocalDir` whose value is the directory |
| Helpers.CreateDirectory | helper_functions/helpers.py:88-102 | the directories become those `MakeDirs` gives; it succeeds exactly when the directory exists afterwards |
| Funcs.Walk | kube_functions/funcs.py:67-68 | each shorter walk's requests are a prefix of the longer one's, and a walk that ended normally ended normally after every earlier document |
| Funcs.WalkFailsAt | kube_functions/funcs.py:67-68 | a document that fails without sending anything ends the walk with its error, after the earlier documents' requests |
| Funcs.WalkStopped | kube_functions/funcs.py:67-68 | once a document has failed, later documents are never touched |
| Funcs.WalkPrefix | helper_functions/helpers.py:82-85 | the walk of the first documents depends on nothing after them, since the generator is lazy |
| Funcs.WalkAtMostOneEach | kube_functions/funcs.py:67-68 | when every step sends at most one request, a walk sends at most one per document |
| Funcs.ApplyOne | kube_functions/funcs.py:67-68 | one document sends at most one request, a create or delete of the document's own kind, and none when its kind is not supported, in which case it raises the lookup's error as it leaves the generator |
| Funcs.AtMostOneRequestPerDocument | kube_functions/funcs.py:60-78 | deploying or deleting a file sends at most one request per document |
| Funcs.UnsupportedDocumentFails | helper_functions/helpers.py:59-60 | a dict of unsupported kind sends nothing and raises `RuntimeError` |
| Funcs.UnsupportedKindStops | helper_functions/helpers.py:82-85 | a document of unsupported kind, reached after the earlier ones succeeded, ends deploy or delete with `RuntimeError` after exactly the earlier requests |
| Funcs.SetOnce | kube_functions/funcs.py:49-58 | the kube-config takes the new value only while it is `None`, and otherwise keeps its value |
| Funcs.SetOnceSticks | kube_functions/funcs.py:49-58 | once the kube-config is set to something other than `None`, setting it again changes nothing |
| Funcs.FunctionManager.constructor | kube_functions/funcs.py:18-27 | the manager keeps the kube-config path and the cluster |
| Funcs.FunctionManager.SetKubeConfig | kube_functions/funcs.py:49-58 | the kube-config becomes `SetOnce` of the old value and the new one |
| Funcs.FunctionManager.ApplyFromYaml | kube_functions/funcs.py:67-68 | a load failure raises before any request; otherwise the requests and the outcome are those of `Walk` over the documents |
| Funcs.FunctionManager.WalkDocuments | kube_functions/funcs.py:67-68 | the loop over the documents sends exactly the walk's requests and ends as the walk does |
| Funcs.FunctionManager.ApplyDocument | kube_functions/funcs.py:67-68 | one document's requests and outcome are those of `ApplyOne` |
| Funcs.FunctionManager.DeployFromYaml | kube_functions/funcs.py:60-68 | the documents are created in order and the first failure stops the rest |
| Funcs.FunctionManager.DeleteFromYaml | kube_functions/funcs.py:70-78 | the documents are deleted in order and the first failure stops the rest |
| Funcs.FunctionManager.ExecBashInPod | kube_functions/funcs.py:80-90 | the command runs in the pod named by the two arguments, unchanged |
| Funcs.FunctionManager.ListExistingFiles | kube_functions/funcs.py:92-101 | runs exactly `ls <path>` in the pod |
| Funcs.FunctionManager.HealthCheck | kube_functions/funcs.py:111-121 | one namespace listing; it never raises, returning nothing on success and a message naming an API or other failure |
| Funcs.FunctionManager.CopyFileToPod | kube_functions/funcs.py:123-135 | the remote directory is created first and a failure there is raised; otherwise the upload stream is opened with the cluster's next reply; a refused stream raises; an accepted one ends normally and its channel received exactly the archive in chunks of 1 to 1024 bytes and was closed once, or, when the archive could not be built, nothing and was left open |
| Funcs.FunctionManager.CopyFileFromPod | kube_functions/funcs.py:137-149 | the local directory is created first; on failure nothing is sent to the cluster; otherwise the download stream is opened; a refused stream raises; an accepted one is closed once, gets nothing on stdin, and the call ends as extracting the encoding of all the pod's stdout ends |
| Funcs.SingletonCache.Instantiate | kube_functions/funcs.py:11-14 | the first call for a class builds the instance from its arguments; every later call returns that instance, ignores its arguments and changes nothing |
| CommandExecutor.UnknownOperation | command_mapper/k8s_command_executor.py:35-36 | as written, an unknown operation raises `TypeError`, never the custom exception |
| CommandExecutor.UnsupportedMessagePlain | command_mapper/k8s_command_executor.py:36 | the message for an operation name with no quote, backslash or control character has none either |
| CommandExecutor.UnknownOperationIntended | command_mapper/k8s_command_executor.py:35-36 | as documented, `UnsupportedKubeOperationProvided` carrying the message and the operation |
| CommandExecutor.Dispatch | command_mapper/k8s_command_executor.py:32-36 | a registered operation builds exactly its class, once, with the given arguments, and ends as that command does; an unregistered one runs nothing and raises `TypeError` |
| CommandExecutor.Executor.constructor | command_mapper/k8s_command_executor.py:8-9 | a fresh executor has an empty registry |
| CommandExecutor.Executor.RegisterCommand | command_mapper/k8s_command_executor.py:11-19 | the name maps to the class, replacing an earlier entry; every other entry is kept |
| CommandExecutor.Executor.ExecuteCommand | command_mapper/k8s_command_executor.py:21-36 | the registry is unchanged; the commands run and the outcome are those of `Dispatch` |
| K8sManager.RegistryHasEightOperations | command_mapper/k8s_manager.py:35-46 | exactly eight operations are registered, and `None` (no operation given) is not one of them |
| K8sManager.RegistryIsOneToOne | command_mapper/k8s_manager.py:39-46 | every registered name maps to its own class, so no class is registered twice |
| K8sManager.Handled | command_mapper/k8s_manager.py:58-61 | exactly `UnsupportedKubeOperationProvided` is caught and printed as "Error: <e>"; every other exception propagates |
| K8sManager.UnknownOperationEscapes | command_mapper/k8s_manager.py:58-61 | as written, an unknown operation escapes `execute_operation` as `TypeError` and nothing is printed |
| K8sManager.IntendedUnknownOperationCaught | command_mapper/k8s_manager.py:58-61 | with the two-argument raise, an unknown operation is caught and the printed line is "Error: " and the text of the tuple (message, operation) |
| K8sManager.IntendedUnknownOperationText | command_mapper/k8s_manager.py:58-61 | for an operation name with no quote, backslash or control character, such as "bogus", the printed line is "Error: ('Unsupported operation: bogus', 'bogus')" |
| K8sManager.Manager.constructor | command_mapper/k8s_manager.py:23-33 | `kube_config` is popped and kept; the caller's dict itself is kept and gains `k8s_func_manager`; the registry holds the eight operations; the function manager is the cached one if any |
| K8sManager.Manager.RegisterCommands | command_mapper/k8s_manager.py:35-46 | the eight operations are registered over the existing registry, in order |
| K8sManager.Manager.ExecuteOperation | command_mapper/k8s_manager.py:48-61 | the command runs with the current contents of the shared dict; the outcome and the printed line are `Handled` of `Dispatch` |
| K8sManager.RunTool | kube.py:4-7 | without `kube_config` in the parameters the manager is never built and `KeyError` is raised with nothing changed; otherwise, because the dict is shared, the command receives neither `kube_config` nor `operation` but does receive `k8s_func_manager` |

## Left out

- Argument parsing (`command_line_parser/parser.py`) is not part of this model. The parsed parameters are a given dict.
- The command classes of `command_mapper/commands.py` are not part of this model. Each forwards its fields to one manager call. Building a class and calling `execute()` is the parameter `run` of `CommandExecutor.Dispatch`.
- `list_pods_for_all_namespaces` (kube_functions/funcs.py:103-109) only prints the listing, so it is left out.
- `config.load_kube_config`, the client objects and the `core_v1_api` property are left out. They are library calls with no logic of the tool's own.
- The Kubernetes client is a stand-in (`KubeClient`). Its exec stream delivers one scripted frame per poll, and reads and writes on it never raise. An exception inside the drain loop, which would skip `close()`, is therefore not modelled.
- The `pretty=True` argument of the Deployment calls is not part of a request.
- `update(timeout=1)` is a plain poll. Timing, the websocket's concurrency and a stream that never ends are not modelled.
- The tar format, `tempfile`, YAML parsing and `os.path.exists` are function parameters or given sets.
- `FailedToLoadYamlFile` carries an opaque handle in place of the parser's exception object.
- Printed text is not modelled: progress lines, "created"/"deleted" messages, stdout echoed by `exec_bash`, and stderr forwarded by a download. Only the line `execute_operation` prints on a caught error is modelled.
- `os.makedirs` creating missing parent directories is not modelled. Creating a directory adds just that path.
- Exceptions.ExcText: for an API error the text is the status and reason only; the HTTP headers and body the client library appends are not modelled.
- Values.Repr: escapes backslashes, the chosen quote, newlines, carriage returns and tabs; other non-printable characters, which Python writes as `\x..` or `\u....`, are kept as they are, and a list or dict is abbreviated.
- Funcs.FunctionManager.HealthCheck: the text after each prefix is `ExcText`, so it is only as exact as `ExcText`.
- PodFileTransfer.UploadArchive: a failure while writing to stdin, which the source also catches and prints, is not modelled. Only a failure to build the archive is.
- PodFileTransfer.StreamFromPod: `read_stdout` returns decoded text, so the buffer gains the UTF-8 encoding of the text. Bytes that are not valid UTF-8 are not modelled.
- Values.Render: formatting a list or dict into a message is abbreviated. The messages the core builds format only strings and `None`.
- K8sManager.Manager.constructor: requires `kube_config` in the dict, as its docstring demands of callers (command_mapper/k8s_manager.py:27). The entry point's path without it, where `pop` raises `KeyError`, is modelled by `K8sManager.RunTool`.
- K8sManager.RunTool: requires `operation` in the dict, which the parser's subcommand destination always sets, to `None` when no subcommand is given.

## Findings

| source | as written | input that shows it | evidently intended | confidence | as-written member | corrected member |
|---|---|---|---|---|---|---|
| command_mapper/k8s_command_executor.py:36 | `UnsupportedKubeOperationProvided` is raised with its message only, while the shared constructor (custom_exceptions/exception.py:2) needs a message and a value, so `TypeError` is raised and escapes `execute_operation` | `K8sManager(...)` used as a library and asked for the operation "bogus" (the command line cannot reach it: the parser rejects unknown subcommands, and without a subcommand `kube_config` is missing and the constructor raises `KeyError` first) | the custom exception, carrying the message and the operation, caught and printed as "Error: ('Unsupported operation: bogus', 'bogus')" | high; not executed | CommandExecutor.UnknownOperation, with K8sManager.UnknownOperationEscapes | CommandExecutor.UnknownOperationIntended, with K8sManager.IntendedUnknownOperationCaught and K8sManager.IntendedUnknownOperationText |
| helper_functions/helpers.py:59-60 | `if repr_class:` tests a `filter` object, which is always truthy, so `__next__` on an empty filter raises `StopIteration`, which leaves the generator as `RuntimeError` | a document `{"kind": "ConfigMap"}` | `KubernetesObjectIsNotSupportedYet` carrying the kind, as the docstring says | high; not executed | Helpers.KindOf, with Helpers.ConfigMapIsNotReported and Funcs.UnsupportedKindStops | Helpers.KindOfIntended, with Helpers.UnsupportedBranchUnreachable |
| kube_objects/deployment.py:14 | the base class gets `(body, name, namespace)` although its parameters are `(body, namespace, name)`, so the two explicit values are swapped | `Deployment(namespace="prod", name="web").namespace` is "web" | each value in its own place, as Pod and Service do | high; not executed | Deployment.New, with Deployment.SwappedNamespace | Deployment.NewIntended, with Deployment.IntendedKeepsExplicitValues |

The operations use the behaviour as written, so that they describe what the
program does:

- `CommandExecutor.Dispatch` raises `UnknownOperation`.
- `Funcs.ApplyOne` uses `Helpers.KindOf`.
- `Helpers.ConvertDictToKubeObject` builds a deployment with `Deployment.New`.

The corrected members stand beside them, with the intended behaviour proved:

- The corrected lookup agrees with the written one on every document but one
  whose kind is unknown (`Helpers.UnsupportedBranchUnreachable`).
- The loader builds every deployment with neither name nor namespace given. For
  those documents the written and the intended constructors build the same
  object (`Deployment.IntendedKeepsExplicitValues`).
