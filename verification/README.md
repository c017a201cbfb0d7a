# Service Fabric command module: application parameters and template deployment

This project models two pieces of logic from the Service Fabric command module of the Azure command-line tool.

- **`--application-parameters KEY=VALUE ...`** (module `AppParams`). This is the argument action that splits each token at its first `=`. It stores the pairs in a fresh dictionary, where a later key overwrites an earlier one, and then sets the namespace's `application_parameters` to that dictionary. The first token without `=` raises `usage error: <option> KEY=VALUE [KEY=VALUE ...]`, and the namespace is then left unchanged. The pure specification is `ParseTokens`. The loop is the method `BuildParams`, which is proved against that specification. The assignment to the namespace is `AddAppParams`, which works on a `Namespace` object.
- **Validate-then-deploy of a Resource Manager template** (module `ArmDeployment`).
  - The deployment name is `AzurePSDeployment-` followed by the twelve digits `YYYYMMDDHHMM` of the clock.
  - The template is validated under that name in incremental mode.
  - If validation reports an error, the error tree (code, message, details) is flattened depth first into lines. A header line is put in front of them, and the lines joined by newlines become the raised message.
  - Only when validation reports no error is the template deployed under the same name.
  - The recursive builder `BuildDetailedError` appends to a caller-owned `OutputList`. It is proved to append exactly `Flatten(tree, list was empty)`. `FlattenIsPreOrder` shows that `Flatten` is the pre-order of the tree, one line per node, where only the first line of an initially empty list reads `Error - ` and every other line reads ` Inner Error - `.
  - The cloud client is a `ResourceClient` oracle. Its `verdict` function stands for whatever the service answers to a validation request. A ghost `trace` records every call, so `ValidateAndDeploy` can state the order of the calls and that deploy happens only when the verdict is no error.

The clock is a parameter (`Timestamp`). Template and parameters are opaque JSON text that the model passes through unchanged.

## Model

| member | source | states |
|---|---|---|
| `AppParams.IndexOf` | src/azure-cli/azure/cli/command_modules/servicefabric/_params.py:208 | the result is the first position holding the character, and it is absent exactly when the character does not occur |
| `AppParams.SplitAtFirst` | src/azure-cli/azure/cli/command_modules/servicefabric/_params.py:208-210 | unpacking `split('=', 1)` fails exactly when the token has no `=`; otherwise token = key + "=" + value with no `=` in the key, so the value keeps any later `=` |
| `AppParams.SplitAtFirstOfJoin` | src/azure-cli/azure/cli/command_modules/servicefabric/_params.py:208 | round trip: splitting `key=value` for a key without `=` gives back exactly that key and value |
| `AppParams.ParseTokens` | src/azure-cli/azure/cli/command_modules/servicefabric/_params.py:205-211 | definition, no contract: the mapping the loop builds, or failure when a token has no `=`; pinned down by `ParseFailsIffSeparatorMissing`, `ParseKeys` and `ParseLastWins` |
| `AppParams.SplitExamples` | src/azure-cli/azure/cli/command_modules/servicefabric/_params.py:208-211 | `k=` gives value "", `=v` gives key "", `a=b=c` splits only at the first `=`, `Mode` is a failure |
| `AppParams.ParseFailsIffSeparatorMissing` | src/azure-cli/azure/cli/command_modules/servicefabric/_params.py:206-211 | the parse fails if and only if some token contains no `=` |
| `AppParams.ParseKeysSound` | src/azure-cli/azure/cli/command_modules/servicefabric/_params.py:205-209 | on success, every key in the mapping is defined by some token |
| `AppParams.ParseKeysComplete` | src/azure-cli/azure/cli/command_modules/servicefabric/_params.py:205-209 | on success, every key that some token defines is in the mapping |
| `AppParams.ParseKeys` | src/azure-cli/azure/cli/command_modules/servicefabric/_params.py:205-209 | on success, a key is in the mapping if and only if some token defines it |
| `AppParams.ParseLastWins` | src/azure-cli/azure/cli/command_modules/servicefabric/_params.py:205-209 | on success, each key maps to the value of its last occurrence; later duplicates overwrite earlier ones |
| `AppParams.ModeBinaryExample` | src/azure-cli/azure/cli/command_modules/servicefabric/tests/latest/test_sf_commands.py:101 | the single token `Mode=binary` yields `{Mode: "binary"}` |
| `AppParams.TwoKeysExample` | src/azure-cli/azure/cli/command_modules/servicefabric/_params.py:205-209 | `A=1 B=2` yields `{A: "1", B: "2"}` |
| `AppParams.UsageError` | src/azure-cli/azure/cli/command_modules/servicefabric/_params.py:211 | definition, no contract: `usage error: <option string> KEY=VALUE [KEY=VALUE ...]`, with a missing option string printed as `None`; pinned down by `BuildParams` |
| `AppParams.BuildParams` | src/azure-cli/azure/cli/command_modules/servicefabric/_params.py:205-211 | the loop succeeds if and only if every token has an `=`; its dictionary is then the one `ParseTokens` denotes; otherwise the error is the usage message naming the option string |
| `AppParams.AddAppParams` | src/azure-cli/azure/cli/command_modules/servicefabric/_params.py:204-212 | on a usage error `application_parameters` is unchanged; on success it is replaced wholesale by the parsed mapping, with no earlier values kept |
| `ArmDeployment.PreOrder` | src/azure-cli/azure/cli/command_modules/servicefabric/_arm_deployment_utils.py:59-61 | the depth-first pre-order starts at the node itself and lists every node of the tree once (its length is the tree size) |
| `ArmDeployment.PreOrderAll` | src/azure-cli/azure/cli/command_modules/servicefabric/_arm_deployment_utils.py:60-61 | the details' pre-orders, in list order, cover exactly the nodes of the details |
| `ArmDeployment.Line` | src/azure-cli/azure/cli/command_modules/servicefabric/_arm_deployment_utils.py:54-57 | definition, no contract: the `Error - ` or ` Inner Error - ` prefix, then `Code: "<code>" Message: "<message>"`; pinned down by `FlattenIsPreOrder` |
| `ArmDeployment.Flatten` | src/azure-cli/azure/cli/command_modules/servicefabric/_arm_deployment_utils.py:53-61 | flattening adds as many lines as the tree has nodes, and the node's own line comes first |
| `ArmDeployment.FlattenAll` | src/azure-cli/azure/cli/command_modules/servicefabric/_arm_deployment_utils.py:59-61 | flattening the details adds as many lines as the details have nodes |
| `ArmDeployment.FlattenIsPreOrder` | src/azure-cli/azure/cli/command_modules/servicefabric/_arm_deployment_utils.py:53-61 | line i is node i of the pre-order; it has the `Error - ` prefix only for i = 0 on an initially empty list, and ` Inner Error - ` otherwise |
| `ArmDeployment.FlattenAllIsPreOrder` | src/azure-cli/azure/cli/command_modules/servicefabric/_arm_deployment_utils.py:59-61 | the details' lines are their nodes in pre-order, all formatted as inner errors |
| `ArmDeployment.LeafFlattensToOneLine` | src/azure-cli/azure/cli/command_modules/servicefabric/_arm_deployment_utils.py:59-61 | a node without details contributes exactly its own line |
| `ArmDeployment.OutputList.Append` | src/azure-cli/azure/cli/command_modules/servicefabric/_arm_deployment_utils.py:55-57 | the list grows by exactly the appended line at its end |
| `ArmDeployment.OutputList.Insert` | src/azure-cli/azure/cli/command_modules/servicefabric/_arm_deployment_utils.py:25 | the line is placed at the index (clamped to the end) and the other lines keep their order |
| `ArmDeployment.BuildDetailedError` | src/azure-cli/azure/cli/command_modules/servicefabric/_arm_deployment_utils.py:53-63 | only appends: the new list is the old contents followed by `Flatten(tree, old list empty)`, and the same list object is returned |
| `ArmDeployment.ZeroPad` | src/azure-cli/azure/cli/command_modules/servicefabric/_arm_deployment_utils.py:17 | a field below 10^width renders as exactly `width` decimal digits |
| `ArmDeployment.DecimalValueOfZeroPad` | src/azure-cli/azure/cli/command_modules/servicefabric/_arm_deployment_utils.py:17 | round trip: reading the zero-padded digits back gives the number |
| `ArmDeployment.Suffix` | src/azure-cli/azure/cli/command_modules/servicefabric/_arm_deployment_utils.py:17 | the `%Y%m%d%H%M` suffix is exactly twelve digits |
| `ArmDeployment.DeploymentName` | src/azure-cli/azure/cli/command_modules/servicefabric/_arm_deployment_utils.py:18 | definition, no contract: `AzurePSDeployment-` followed by the twelve-digit suffix; pinned down by `DeploymentNameInjective` |
| `ArmDeployment.DeploymentNameInjective` | src/azure-cli/azure/cli/command_modules/servicefabric/_arm_deployment_utils.py:17-18 | different minutes give different deployment names, so names are unique at minute granularity |
| `ArmDeployment.Join` | src/azure-cli/azure/cli/command_modules/servicefabric/_arm_deployment_utils.py:26 | definition, no contract: the lines separated by the separator, as Python's `str.join`; pinned down through `ValidationMessageStartsWithRoot` |
| `ArmDeployment.ValidationMessage` | src/azure-cli/azure/cli/command_modules/servicefabric/_arm_deployment_utils.py:24-26 | definition, no contract: the header line put in front of the flattened error lines, all joined by newlines; pinned down by `ValidateAndDeploy` and `ValidationMessageStartsWithRoot` |
| `ArmDeployment.ValidationMessageStartsWithRoot` | src/azure-cli/azure/cli/command_modules/servicefabric/_arm_deployment_utils.py:24-26 | the raised message begins with the header line, a newline and the root error's `Error - ` line |
| `ArmDeployment.ResourceClient.Validate` | src/azure-cli/azure/cli/command_modules/servicefabric/_arm_deployment_utils.py:44-45 | validation reports the service's verdict on the request and is recorded in the trace |
| `ArmDeployment.ResourceClient.CreateOrUpdate` | src/azure-cli/azure/cli/command_modules/servicefabric/_arm_deployment_utils.py:47-50 | the deployment call is recorded in the trace |
| `ArmDeployment.ValidateAndDeploy` | src/azure-cli/azure/cli/command_modules/servicefabric/_arm_deployment_utils.py:16-29 | both calls use `AzurePSDeployment-` + suffix and mode `incremental`. Validate is called first. On a validation error the raised message is the header plus the flattened lines joined by newlines, and no deploy call occurs. Otherwise exactly one deploy call follows. |

## Left out

- The argument registrations of `_params.py` (`argument_context`, `c.argument`, enum and JSON option types, location defaults). They are declarative configuration of the host command-line framework and contain no logic.
- The validators of `_validators.py`. That file is not part of this model.
- The body of `_deploy_arm_template_core`. The SDK properties object, the client factory, `sdk_no_wait` and the long-running-operation poller are foreign network calls. `ResourceClient` replaces them with an oracle, and `no_wait` is always false on these paths.
- Exceptions raised by the cloud client itself: transport failures, not-found errors, and a deployment that fails while the long-running operation is polled (line 49 of `_arm_deployment_utils.py`). They propagate unchanged in the source. The model does not represent them, so `ValidateAndDeploy` reports success whenever the validation verdict is no error.
- `datetime.now()` and `strftime`. The clock reading is the `Timestamp` parameter. The year is zero-padded to four digits, which is what most platforms do for years below 1000.
- Logging calls (`logger.info`).
- AppParams.BuildParams: returns a Dafny `map`, which has no order. The Python dictionary also remembers the order in which keys were first inserted, and the model does not capture that order.
- ArmDeployment.ResourceClient.CreateOrUpdate: does not return the completed deployment. The caller discards that result in the source.
- ArmDeployment.OutputList.Insert: covers only non-negative indices. Python's negative indices count from the end, but the source only inserts at index 0.
- A missing `details` value (`None`) and an empty list both stop the recursion in the source. Both are modelled as the empty sequence.
