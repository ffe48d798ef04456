# Model of the device pipeline, its codecs and the provisioning machine

The repository is a device SDK for a cloud hub reached over MQTT. This project models its hardest parts and proves
properties of the models for all inputs, runs and interleavings.

* **Connection pipeline** (`ConnectionModel`, `ConnectionFlat`, `ConnectionTheorems`, `ConnectionOutcomes`,
  `ConnectionPipeline`, `PipelineThread`): the stages that make sure there is a connection, serialize connect, disconnect and reconnect
  operations, and talk to the MQTT library. Callbacks are data carried by operations, so re-entrancy is ordinary
  recursion with a measure. `ConnectionPipeline` holds the mutable fields and is proved equal to the functions;
  `ConnectionFlat` is a simple non-re-entrant account that the re-entrant one is proved to refine; the run theorems rest
  on it. `ConnectionOutcomes` says from the tasks alone when there is a link, what may go down and how operations may
  end; `PipelineThread` makes all this contracts of the object.
* **Matching** (`CoordinateRequests`, `OperationManager`): responses against requests, acknowledgements against
  packet identifiers, in whatever order they come.
* **Codecs** (`UrlCodec`, `MessageTopics`, `MessageWire`, `TopicLevels`, `TopicDispatch`, `TopicTexts`, `SasToken`,
  `SasText`, with `Dicts`, `Decimal`, `Options`): percent-encoding, message properties on topics, topic classification,
  shared access signatures; for each, both the round trip and what the text itself says.
* **Provisioning** (`PollingReplies`, `PollingTopics`, `PollingModel`, `PollingTheorems`, `PollingOutcomes`,
  `PollingMachine`, `RegistrationRun`): the polling machine with its timers and request table, the decoding of replies of
  any JSON shape, the recovery of an operation id from a topic it built earlier, and which events lead to which end.
* **Companions** (`Inboxes`, `StageChain`, `SasRenewal`).

A model state ends in logs (operations handed down, callbacks run, requests sent) that the code does not keep; they
exist to state what happened over a run.

Where a desirable property does not hold of the code, the model keeps the code and the exact condition is proved:

* An operation that needs a connection can be handed down without one: exactly when a disconnect completes cleanly
  with such an operation queued ahead of every accepted connect (`RunHandsDownUnconnectedIff`).
* Operations that waited for one connect go down in the order of their submission exactly when there is only one of
  them; otherwise the first comes last (`FirstComesLast`, `ArrivalOrderKeptIff`).
* The message round trip is the identity exactly for faithful messages (`RoundTripIff`): the output name and the expiry
  come back as custom properties, an empty system field is not sent, and a custom key such as `$.mid` becomes a field
  (`EncodedMessageArrives`, `ExtractTakesOver`).
* An input message can be taken for a cloud-to-device message, in exactly one family of names (`InputDispatchesIff`).
* A generated token parses back to its identity exactly when no id holds a slash, the module is not the empty text, and
  the key name has neither a space nor an `&` (`TokenRoundTripIff`).
* A throttled status query recovers its operation id exactly when that id is plain (`RecoverIff`). With another id, with
  a status or interval that is not a number, or with a successful reply that raises while it is decoded, the polling
  machine is left with no timer running or goes on to poll with a wrong id, and with no other reply
  (`StepKeepsInvIff`, `DerailedStallsOrStrays`).
* A caller whose registration timed out hears of the timeout exactly unless a late failing reply to that request comes
  before the disconnect has ended; then it hears of that reply (`RunAgreesWithVerdict`, `LateReplyReplacesTimeout`).
* A direct method call whose name has a question mark loses its request id, unless the text behind the mark happens to
  yield the same one (`MethodTopicDispatches`).
* Callbacks and acknowledgements of a packet identifier are matched throughout a run exactly when the identifier is
  unique in flight (`MatchedIffUniqueInFlight`); established again while pending, it loses its first callback
  (`ReusedInFlightLosesCallback`).
* An operation ends with its error set exactly when some later send result for its request is an error, even if its
  response had completed it before (`ErrorSetIff`, `LateSendErrorIsSwallowed`).
* Appending a stage keeps the chain well formed exactly when the stage is new to it and has nothing behind it
  (`AppendStage`).

`dafny verify dfyconfig.toml` checks everything.

## Model

| member | source | states |
|---|---|---|
| ConnectionTheorems.RunNeverCancels | azure-iot-device/azure/iot/device/common/pipeline/pipeline_stages_base.py:323-425 | In every reachable state the serialize stage is blocked exactly while the transport holds a pending connect, disconnect or reconnect; the queue is empty while it is open; the cancel branch of the transport never ran |
| ConnectionTheorems.ExactlyOnce | azure-iot-device/azure/iot/device/common/pipeline/operation_flow.py:68-115 | For every run and every operation: the places that hold it (queue, acknowledgement map, pending slot, parked behind a made-up connect) plus the runs of its callback equal the number of times it was submitted |
| ConnectionTheorems.RunHandsDownUnconnectedIff | azure-iot-device/azure/iot/device/common/pipeline/pipeline_stages_base.py:263-278 | A run hands an operation that needs a connection to the transport while there is none if and only if at some moment a disconnect completes without error with such an operation queued ahead of every accepted connect |
| ConnectionTheorems.StepHandsDownUnconnectedIff | azure-iot-device/azure/iot/device/common/pipeline/pipeline_stages_base.py:392-425 | The same for one task: the exact condition, both ways, on the state and the task |
| ConnectionOutcomes.HandedOnlyWhileConnected | azure-iot-device/azure/iot/device/common/pipeline/pipeline_stages_base.py:263-425 | In every run without disconnect operations, every publish, subscribe and unsubscribe is handed to the transport by a task after which the last report of the library is that it is connected, whatever drops, failures and reconnects occur |
| ConnectionOutcomes.ConnectedIffLinkUp | azure-iot-device/azure/iot/device/common/pipeline/pipeline_stages_base.py:234-254 | In every run the root takes itself for connected if and only if the last report was a connection; at the start it does not |
| ConnectionOutcomes.NewsOfEveryTaskFits | azure-iot-device/azure/iot/device/common/pipeline/pipeline_stages_mqtt.py:156-244 | In every run everything a task hands down and completes has its reason: connects go down only without a link and disconnects only over one; a success needs a link (connect), a new one (reconnect), none (disconnect) or an acknowledgement (traffic); a failure carries the reported error or the refusal |
| ConnectionOutcomes.AnswerEndsPending | azure-iot-device/azure/iot/device/common/pipeline/pipeline_stages_mqtt.py:175-244 | The report that answers a pending operation ends it in the same task: its caller hears the outcome last, or the operation behind a made-up connect fails with it, goes down last, or queues up again |
| ConnectionOutcomes.PendingUntilAnswered | azure-iot-device/azure/iot/device/common/pipeline/pipeline_stages_mqtt.py:184-210 | Until then a pending operation and the queue behind it stay, whatever else is reported |
| ConnectionOutcomes.AckCompletes | azure-iot-device/azure/iot/device/common/pipeline/pipeline_stages_mqtt.py:126-151 | An acknowledgement completes its operation successfully and at once, and changes nothing else |
| ConnectionOutcomes.TrafficGoesDown | azure-iot-device/azure/iot/device/common/pipeline/pipeline_stages_mqtt.py:123-151 | Traffic submitted over a link goes down at once and waits, completes early or fails as the library answers |
| ConnectionOutcomes.OpenStageAnswers | azure-iot-device/azure/iot/device/common/pipeline/pipeline_stages_base.py:335-382 | A connect over a link and a disconnect without one succeed at once and go no further; other connection operations go down and are pending or fail with the refusal; unknown operations fail at once |
| ConnectionOutcomes.RefusedConnectFailsTraffic | azure-iot-device/azure/iot/device/common/pipeline/pipeline_stages_base.py:263-306 | Traffic without a link sends a connect down; if that is refused, the traffic fails with the refusal |
| ConnectionOutcomes.UnexpectedReports | azure-iot-device/azure/iot/device/common/pipeline/pipeline_stages_mqtt.py:184-244 | Without a pending operation a report changes nothing but the link |
| ConnectionOutcomes.StepLink | azure-iot-device/azure/iot/device/common/pipeline/pipeline_stages_mqtt.py:173-223 | One task changes the link only by reporting it |
| ConnectionTheorems.DisconnectStrandsPublish | azure-iot-device/azure/iot/device/common/pipeline/pipeline_stages_base.py:343-381 | The hypothesis is needed: from any open connected state, disconnect then publish then a clean disconnect event hands the publish down without a connection |
| ConnectionTheorems.ConnectOpens | azure-iot-device/azure/iot/device/common/pipeline/pipeline_stages_mqtt.py:167-183 | Such an open connected state is reached from the start by one connect |
| ConnectionTheorems.FirstComesLast | azure-iot-device/azure/iot/device/common/pipeline/pipeline_stages_base.py:280-306 | k operations submitted while disconnected cause one connect and, when it succeeds, go down once each, over the open connection, in the order 2, 3, ..., k, 1, whatever drops and acknowledgements come in between |
| ConnectionTheorems.ArrivalOrderKeptIff | azure-iot-device/azure/iot/device/common/pipeline/pipeline_stages_base.py:362-376 | They go down in the order in which they were submitted if and only if there is only one of them |
| ConnectionTheorems.SubmittedQueueUp | azure-iot-device/azure/iot/device/common/pipeline/pipeline_stages_base.py:327-333 | While that connect is under way the first operation is parked behind it and all later ones stand in the queue behind connects of their own, in order, through drops and acknowledgements |
| ConnectionTheorems.ConnectsReleaseInOrder | azure-iot-device/azure/iot/device/common/pipeline/pipeline_stages_base.py:335-341 | Queued made-up connects released over an open connection send the operations behind them down in queue order |
| ConnectionTheorems.SucceedReleasesAll | azure-iot-device/azure/iot/device/common/pipeline/pipeline_stages_base.py:363-376 | A successful connect releases the queue before the operation it was itself made for |
| ConnectionTheorems.FailureCascades | azure-iot-device/azure/iot/device/common/pipeline/pipeline_stages_base.py:406-419 | When the blocking operation fails, exactly the queued operations and those behind queued connects complete, in queue order, with that error, then the blocking one; nothing is handed down; the stage ends open and empty |
| ConnectionTheorems.ArrivalOrder | azure-iot-device/azure/iot/device/common/pipeline/pipeline_stages_base.py:392-425 | In every run in which nothing is parked, the operations that left the serialize stage followed by those queued are the submitted ones in arrival order, through any number of re-blocks |
| ConnectionTheorems.RunNoDisconnect | azure-iot-device/azure/iot/device/common/pipeline/pipeline_stages_base.py:354-358 | Without submitted disconnects none is ever queued or pending |
| ConnectionTheorems.AdmitAccounts | azure-iot-device/azure/iot/device/common/pipeline/pipeline_stages_base.py:323-382 | Whatever branch the serialize stage takes, the operation it was given is afterwards accounted for exactly once more |
| ConnectionTheorems.AckAccounts | azure-iot-device/azure/iot/device/common/pipeline/pipeline_stages_mqtt.py:126-131 | An acknowledgement turns one outstanding operation into one completion and loses no other, whichever one comes next |
| ConnectionTheorems.StepInOrder | azure-iot-device/azure/iot/device/common/pipeline/pipeline_stages_base.py:392-425 | Each task keeps "left, then queued" equal to the arrivals |
| ConnectionFlat.FlatStepIsStep | azure-iot-device/azure/iot/device/common/pipeline/pipeline_stages_base.py:323-425 | Refinement: in every settled state the re-entrant stages compute the same state as a flat left-to-right pass over the queue, and the state is settled again |
| ConnectionFlat.AdmitIsSerialize | azure-iot-device/azure/iot/device/common/pipeline/pipeline_stages_base.py:323-382 | The serialize stage with its nested completions equals one flat decision per operation |
| ConnectionFlat.EnsureIsAdmit | azure-iot-device/azure/iot/device/common/pipeline/pipeline_stages_base.py:263-306 | The ensure stage equals admitting either the operation or a connect made for it |
| ConnectionFlat.TransmitIsTransport | azure-iot-device/azure/iot/device/common/pipeline/pipeline_stages_mqtt.py:123-154 | A publish, subscribe or unsubscribe waits for its acknowledgement, completes early or fails with the error raised by the library |
| ConnectionFlat.FailureReachesRoot | azure-iot-device/azure/iot/device/common/pipeline/pipeline_stages_base.py:287-295 | A failed connect reports its error to the operation it was made for, or to its own caller |
| ConnectionFlat.NestedUnblockFindsNothing | azure-iot-device/azure/iot/device/common/pipeline/pipeline_stages_base.py:392-408 | A connection operation that fails at once re-enters the unblocking, which then finds an empty queue |
| ConnectionFlat.ReleaseIsAdmitAll | azure-iot-device/azure/iot/device/common/pipeline/pipeline_stages_base.py:406-425 | Releasing without error is admitting the old queue from left to right |
| ConnectionFlat.ReleaseIsFailAll | azure-iot-device/azure/iot/device/common/pipeline/pipeline_stages_base.py:406-419 | Releasing with an error completes everything that was queued with that error |
| ConnectionFlat.SucceedIsComplete | azure-iot-device/azure/iot/device/common/pipeline/pipeline_stages_base.py:362-376 | Success of the pending operation: the queue first, the operation itself last |
| ConnectionFlat.FailIsComplete | azure-iot-device/azure/iot/device/common/pipeline/pipeline_stages_base.py:362-376 | Failure of the pending operation: the queue fails first, then the operation itself |
| ConnectionFlat.AdmitSettles | azure-iot-device/azure/iot/device/common/pipeline/pipeline_stages_base.py:323-382 | Admission keeps the stage settled, leaves the connection flag alone and cancels nothing |
| ConnectionModel.PassToSerialize | azure-iot-device/azure/iot/device/common/pipeline/operation_flow.py:80-91 | Nested calls end: the measure over queued, pending and parked operations never grows beyond the operation passed in |
| ConnectionModel.RunSerialize | azure-iot-device/azure/iot/device/common/pipeline/pipeline_stages_base.py:323-382 | The same bound for the serialize stage |
| ConnectionModel.PassToTransport | azure-iot-device/azure/iot/device/common/pipeline/operation_flow.py:80-91 | The same bound towards the transport |
| ConnectionModel.RunTransport | azure-iot-device/azure/iot/device/common/pipeline/pipeline_stages_mqtt.py:46-154 | The same bound for the transport stage, cancellation and synchronous failures included |
| ConnectionModel.Complete | azure-iot-device/azure/iot/device/common/pipeline/operation_flow.py:94-115 | The same bound for running a callback, however many stages it re-enters |
| ConnectionModel.Release | azure-iot-device/azure/iot/device/common/pipeline/pipeline_stages_base.py:392-425 | The release loop ends, nested releases included |
| ConnectionModel.ReleaseOne | azure-iot-device/azure/iot/device/common/pipeline/pipeline_stages_base.py:408-425 | The same bound for one turn of the loop |
| ConnectionPipeline.Pipeline.constructor | azure-iot-device/azure/iot/device/common/pipeline/pipeline_stages_base.py:318-321 | Starts unblocked and disconnected, as `ConnectedIffLinkUp` needs, with an empty queue and no pending operation |
| ConnectionPipeline.Pipeline.EnsureExecuteOp | azure-iot-device/azure/iot/device/common/pipeline/pipeline_stages_base.py:263-278 | The method with its fields computes exactly the modelled ensure stage |
| ConnectionPipeline.Pipeline.DoConnect | azure-iot-device/azure/iot/device/common/pipeline/pipeline_stages_base.py:280-306 | Starts a connect whose callback remembers the operation it was made for |
| ConnectionPipeline.Pipeline.OnConnectOpComplete | azure-iot-device/azure/iot/device/common/pipeline/pipeline_stages_base.py:286-300 | Fails the remembered operation with the error of the connect, or passes it on |
| ConnectionPipeline.Pipeline.PassOpToSerialize | azure-iot-device/azure/iot/device/common/pipeline/operation_flow.py:68-91 | An operation in error completes instead of going on |
| ConnectionPipeline.Pipeline.SerializeExecuteOp | azure-iot-device/azure/iot/device/common/pipeline/pipeline_stages_base.py:323-382 | The method with its fields computes exactly the modelled serialize stage |
| ConnectionPipeline.Pipeline.PassOpToTransport | azure-iot-device/azure/iot/device/common/pipeline/operation_flow.py:68-91 | An operation in error completes instead of going on |
| ConnectionPipeline.Pipeline.Unblock | azure-iot-device/azure/iot/device/common/pipeline/pipeline_stages_base.py:392-425 | The while loop over the queue it swapped out, re-entered by what it releases, computes exactly the modelled release |
| ConnectionPipeline.Pipeline.OnOperationComplete | azure-iot-device/azure/iot/device/common/pipeline/pipeline_stages_base.py:362-376 | Restores the callback, unblocks, then completes the operation |
| ConnectionPipeline.Pipeline.CancelPendingConnectionOp | azure-iot-device/azure/iot/device/common/pipeline/pipeline_stages_mqtt.py:30-44 | Fails a pending operation, if there is one |
| ConnectionPipeline.Pipeline.TransportExecuteOp | azure-iot-device/azure/iot/device/common/pipeline/pipeline_stages_mqtt.py:46-154 | The method with its fields computes exactly the modelled transport stage |
| ConnectionPipeline.Pipeline.CompleteOp | azure-iot-device/azure/iot/device/common/pipeline/operation_flow.py:94-115 | Runs the callback of an operation, whichever of the three kinds it is |
| ConnectionPipeline.Pipeline.OnMqttConnected | azure-iot-device/azure/iot/device/common/pipeline/pipeline_stages_mqtt.py:167-188 | Sets the flag first, then completes a pending connect or reconnect |
| ConnectionPipeline.Pipeline.OnMqttConnectionFailure | azure-iot-device/azure/iot/device/common/pipeline/pipeline_stages_mqtt.py:190-210 | Fails a pending connect or reconnect and leaves a disconnect alone |
| ConnectionPipeline.Pipeline.OnMqttDisconnected | azure-iot-device/azure/iot/device/common/pipeline/pipeline_stages_mqtt.py:212-244 | Clears the flag first, then completes a pending disconnect, with an error when there is a cause |
| ConnectionPipeline.Pipeline.OnAcknowledged | azure-iot-device/azure/iot/device/common/pipeline/pipeline_stages_mqtt.py:126-151 | Completes the operation the acknowledgement belongs to |
| ConnectionPipeline.Pipeline.RunTask | azure-iot-device/azure/iot/device/common/pipeline/pipeline_stages_mqtt.py:156-244 | Each task of the pipeline thread does exactly what the model's step does |
| PipelineThread.Thread.constructor | azure-iot-device/azure/iot/device/common/pipeline/pipeline_thread.py:78-88 | A new pipeline on which no task has run |
| PipelineThread.Thread.RunTask | azure-iot-device/azure/iot/device/common/pipeline/pipeline_thread.py:91-158 | The run theorems as a contract of the object: after every task the stages are settled and have cancelled nothing, the object knows whether there is a link, every operation is in as many places or completed as many times as it was submitted, and what the task handed down and completed fits the task and the link |
| CoordinateRequests.FirstVerdictDecides | azure-iot-device/azure/iot/device/common/pipeline/pipeline_stages_base.py:439-528 | For every order of send results and responses, early, late, duplicated or unknown: an operation completes exactly as the first later event for its request id says, at most once, and is pending exactly until then |
| CoordinateRequests.LateSendErrorIsSwallowed | azure-iot-device/azure/iot/device/common/pipeline/pipeline_stages_base.py:456-464 | A send error after the response completes nothing and changes no table; it only overwrites the error of the finished operation |
| CoordinateRequests.ErrorSetIff | azure-iot-device/azure/iot/device/common/pipeline/pipeline_stages_base.py:449-467 | Over whole runs: an operation ends with its error set if and only if some later send result for its request is an error, even when its response completed it |
| CoordinateRequests.LastErrorRemains | azure-iot-device/azure/iot/device/common/pipeline/pipeline_stages_base.py:456-457 | Its error is then that of the last such result |
| CoordinateRequests.NoErrorBeforeSubmit | azure-iot-device/azure/iot/device/common/pipeline/pipeline_stages_base.py:447-457 | No earlier event sets the error of an operation |
| CoordinateRequests.RunKnows | azure-iot-device/azure/iot/device/common/pipeline/pipeline_stages_base.py:475-488 | The tables name only submitted operations, under the request ids drawn for them, and only submitted operations complete |
| CoordinateRequests.StepCorrelates | azure-iot-device/azure/iot/device/common/pipeline/pipeline_stages_base.py:505-526 | Each event keeps an operation pending or completed exactly according to the first verdict |
| CoordinateRequests.LaterEventsDecide | azure-iot-device/azure/iot/device/common/pipeline/pipeline_stages_base.py:493-528 | The same over any further stretch of events |
| CoordinateRequests.SubmitCorrelates | azure-iot-device/azure/iot/device/common/pipeline/pipeline_stages_base.py:478-488 | A submitted operation is pending under its own request id and has not completed |
| CoordinateRequests.FirstVerdict | azure-iot-device/azure/iot/device/common/pipeline/pipeline_stages_base.py:449-467 | At most one completion comes of any sequence of events |
| CoordinateRequests.Stage.constructor | azure-iot-device/azure/iot/device/common/pipeline/pipeline_stages_base.py:435-437 | Starts with no pending response |
| CoordinateRequests.Stage.ExecuteOp | azure-iot-device/azure/iot/device/common/pipeline/pipeline_stages_base.py:439-488 | Files the operation under its request id before sending |
| CoordinateRequests.Stage.OnSendRequestDone | azure-iot-device/azure/iot/device/common/pipeline/pipeline_stages_base.py:449-467 | A send error removes and completes a pending operation; deleting a missing key raises after the error is set |
| CoordinateRequests.Stage.HandleResponse | azure-iot-device/azure/iot/device/common/pipeline/pipeline_stages_base.py:493-526 | A response completes the operation of its request id with its status and body, and is dropped when there is none |
| OperationManager.OrderIndependent | azure-iot-device/azure/iot/device/common/mqtt_transport.py:352-428 | With MIDs unique in flight (section 2.3.1 of MQTT 3.1.1), what has been triggered for a MID depends only on the callbacks established and the number of acknowledgements, not on the interleaving; the maps hold exactly "established, not acknowledged" and "acknowledged, not established" |
| OperationManager.MatchedIffUniqueInFlight | azure-iot-device/azure/iot/device/common/mqtt_transport.py:352-428 | The manager matches the k-th callback of a MID with its k-th acknowledgement at every moment of a run if and only if the MID is unique in flight throughout the run |
| OperationManager.EachTriggerFiresOnce | azure-iot-device/azure/iot/device/common/mqtt_transport.py:375-386 | However the calls go on after the lock is released, each trigger has fired or is about to, once |
| OperationManager.EveryTriggerFires | azure-iot-device/azure/iot/device/common/mqtt_transport.py:375-428 | Once the waiting calls have gone on, nothing waits, the maps are as they were, and every trigger has fired exactly as often as it was triggered |
| OperationManager.CallbacksFireExactlyOnce | azure-iot-device/azure/iot/device/common/mqtt_transport.py:352-428 | With a MID unique in flight, the callbacks that have then run for it are those of its acknowledged establishments, each exactly once |
| OperationManager.FinishFiresItsOwn | azure-iot-device/azure/iot/device/common/mqtt_transport.py:377-384 | A call that goes on runs the callback it holds and leaves every other waiting call in place |
| OperationManager.ReusedInFlightLosesCallback | azure-iot-device/azure/iot/device/common/mqtt_transport.py:370-373 | From the start: a MID established twice and then acknowledged any number of times triggers only the second callback, once |
| OperationManager.EstablishKeepsMatched | azure-iot-device/azure/iot/device/common/mqtt_transport.py:359-373 | Establishing keeps k-th establishment and k-th acknowledgement matched |
| OperationManager.CompleteKeepsMatched | azure-iot-device/azure/iot/device/common/mqtt_transport.py:397-413 | So does an acknowledgement, early or late |
| OperationManager.OthersKeepMatched | azure-iot-device/azure/iot/device/common/mqtt_transport.py:352-428 | So do calls for other MIDs and the callbacks that run outside the lock |
| OperationManager.StepConserves | azure-iot-device/azure/iot/device/common/mqtt_transport.py:375-428 | Each step keeps triggered equal to waiting plus fired |
| OperationManager.Manager.constructor | azure-iot-device/azure/iot/device/common/mqtt_transport.py:339-350 | Starts with two empty maps |
| OperationManager.Manager.EstablishOperation | azure-iot-device/azure/iot/device/common/mqtt_transport.py:352-373 | The locked region: consumes an early acknowledgement and triggers, or files the callback |
| OperationManager.Manager.CompleteOperation | azure-iot-device/azure/iot/device/common/mqtt_transport.py:388-413 | The locked region: takes the callback and triggers, or remembers the acknowledgement |
| OperationManager.Manager.FinishCall | azure-iot-device/azure/iot/device/common/mqtt_transport.py:415-428 | After the lock the call runs its own callback |
| MessageTopics.RoundTripIff | azure-iot-device/azure/iot/device/iothub/pipeline/mqtt_topic_iothub.py:167-265 | On both kinds of incoming topic, extracting what was encoded yields the very same message without error if and only if it has no output name or expiry, no empty system field and no custom key equal to a recognised system key |
| MessageWire.EncodedMessageArrives | azure-iot-device/azure/iot/device/iothub/pipeline/mqtt_topic_iothub.py:167-265 | What arrives of any message without system keys among its custom ones: six attributes as sent, the output name under `$.on` and the expiry under `$.exp` among the custom properties, all other custom properties unchanged |
| MessageWire.WireCarriesMessage | azure-iot-device/azure/iot/device/iothub/pipeline/mqtt_topic_iothub.py:225-263 | Read as form data by a reader that knows no messages, the encoded suffix holds each attribute under its own key and each custom property under its |
| MessageWire.WireValue | azure-iot-device/azure/iot/device/iothub/pipeline/mqtt_topic_iothub.py:225-263 | The same for every key and message; where both claim a key, the custom property wins |
| MessageWire.ExtractTakesOver | azure-iot-device/azure/iot/device/iothub/pipeline/mqtt_topic_iothub.py:188-209 | From any topic an extraction that does not raise sets six attributes from their own keys and custom properties from all others, the last value of a key winning |
| MessageWire.ExtractReadsForm | azure-iot-device/azure/iot/device/iothub/pipeline/mqtt_topic_iothub.py:188-194 | An extraction raises if and only if some entry has no equals sign |
| MessageWire.NoPropertiesLevel | azure-iot-device/azure/iot/device/iothub/pipeline/mqtt_topic_iothub.py:174-188 | A topic that ends in front of the properties yields none |
| MessageWire.ShortTopicRaises | azure-iot-device/azure/iot/device/iothub/pipeline/mqtt_topic_iothub.py:174-186 | A topic of fewer than four levels raises |
| MessageTopics.AssignAllPairs | azure-iot-device/azure/iot/device/iothub/pipeline/mqtt_topic_iothub.py:196-209 | What exactly arrives of such a message: every field and the custom map, with empty texts as absent |
| MessageTopics.ExtractOfEncode | azure-iot-device/azure/iot/device/iothub/pipeline/mqtt_topic_iothub.py:167-265 | For every message, faithful or not, extraction assigns exactly the encoded list, in order |
| MessageTopics.SuffixAlphabet | azure-iot-device/azure/iot/device/iothub/pipeline/mqtt_topic_iothub.py:225-265 | The encoded suffix has no `/`, `#` or `?`, and has `+` exactly when some key or value has a space |
| MessageTopics.EncodeIsOneList | azure-iot-device/azure/iot/device/iothub/pipeline/mqtt_topic_iothub.py:256-265 | The system part, the optional `&` and the custom part read as one encoded list |
| MessageTopics.ExtractEncoded | azure-iot-device/azure/iot/device/iothub/pipeline/mqtt_topic_iothub.py:188-209 | Wherever a topic carries an encoded list, extraction assigns exactly that list |
| MessageTopics.PartOfEncoded | azure-iot-device/azure/iot/device/iothub/pipeline/mqtt_topic_iothub.py:174-186 | The properties of a canonical topic are found at the right level, on both kinds of topic |
| MessageTopics.AssignCustom | azure-iot-device/azure/iot/device/iothub/pipeline/mqtt_topic_iothub.py:208-209 | Custom keys fill the custom map in order when none is a recognised system key |
| MessageTopics.AssignSystem | azure-iot-device/azure/iot/device/iothub/pipeline/mqtt_topic_iothub.py:196-207 | The system keys fill their own fields and no other |
| MessageTopics.AssignedKeys | azure-iot-device/azure/iot/device/iothub/pipeline/mqtt_topic_iothub.py:196-209 | Recognised keys never end up among the custom properties |
| MessageTopics.Message.ExtractProperties | azure-iot-device/azure/iot/device/iothub/pipeline/mqtt_topic_iothub.py:167-209 | The loop over the entries assigns what the specification says and stops where the code raises |
| MessageTopics.Message.EncodeProperties | azure-iot-device/azure/iot/device/iothub/pipeline/mqtt_topic_iothub.py:213-265 | The appending code yields exactly the specified text, whose keys `WireCarriesMessage` fixes |
| MessageTopics.Message.constructor | azure-iot-device/azure/iot/device/iothub/pipeline/mqtt_topic_iothub.py:167-172 | A message to fill starts without properties |
| UrlCodec.UnquoteQuote | azure-iot-device/azure/iot/device/iothub/pipeline/mqtt_topic_iothub.py:193-194 | `unquote_plus` undoes `quote_plus` on every byte string (section 2.1 of RFC 3986) |
| UrlCodec.UnquoteEscape | azure-iot-device/azure/iot/device/iothub/pipeline/mqtt_topic_iothub.py:193-194 | Any two hex digits in either case behind a percent sign denote one byte |
| UrlCodec.UnquoteOthers | azure-iot-device/azure/iot/device/iothub/pipeline/mqtt_topic_iothub.py:193-194 | A plus sign denotes a space, other characters themselves |
| UrlCodec.HexValueIff | azure-iot-device/azure/iot/device/iothub/pipeline/mqtt_topic_iothub.py:193-194 | The sixteen digits, in either case |
| UrlCodec.QuoteWrites | azure-iot-device/azure/iot/device/iothub/pipeline/mqtt_topic_iothub.py:54-56 | Quoting writes a space as `+`, keeps unreserved characters, and escapes all others with capital hex digits |
| UrlCodec.UnreservedIff | azure-iot-device/azure/iot/device/iothub/pipeline/mqtt_topic_iothub.py:54-56 | The unreserved characters, written out |
| UrlCodec.QuoteAlphabet | azure-iot-device/azure/iot/device/iothub/pipeline/mqtt_topic_iothub.py:54-56 | Quoted text has only unreserved characters, `%` and `+`, and has `+` exactly when a space was quoted |
| UrlCodec.UrlEncodeAlphabet | azure-iot-device/azure/iot/device/iothub/pipeline/mqtt_topic_iothub.py:256-263 | An encoded list adds only `=` and `&` to that |
| UrlCodec.UrlEncodeSplits | azure-iot-device/azure/iot/device/iothub/pipeline/mqtt_topic_iothub.py:189-192 | Splitting an encoded list at `&` yields its entries |
| UrlCodec.UrlEncodeAppend | azure-iot-device/azure/iot/device/iothub/pipeline/mqtt_topic_iothub.py:259-263 | Two encoded lists with `&` between them are the encoding of one list |
| UrlCodec.SplitJoin | azure-iot-device/azure/iot/device/iothub/pipeline/mqtt_topic_iothub.py:174 | Splitting undoes joining for parts without the separator |
| UrlCodec.JoinSplit | azure-iot-device/azure/iot/device/iothub/pipeline/mqtt_topic_iothub.py:174 | Joining undoes splitting, for every text |
| UrlCodec.Split | azure-iot-device/azure/iot/device/iothub/pipeline/mqtt_topic_iothub.py:138-139 | A split is never empty, its parts lack the separator, and it is a single part exactly when the text lacks it |
| Dicts.DictSetDistinct | azure-iot-device/azure/iot/device/iothub/pipeline/mqtt_topic_iothub.py:135-142 | Assigning to a key keeps the keys of a dictionary distinct |
| Dicts.DictSetKeepsOthers | azure-iot-device/azure/iot/device/iothub/pipeline/mqtt_topic_iothub.py:142 | Assigning to one key leaves the others alone |
| Decimal.ParseToDecimal | azure-iot-device/azure/iot/device/iothub/pipeline/pipeline_stages_iothub_mqtt.py:207 | `int` undoes the decimal notation of a status |
| Decimal.DecimalText | azure-iot-device/azure/iot/device/iothub/pipeline/pipeline_stages_iothub_mqtt.py:207 | The most significant digit comes first |
| TopicLevels.ContainsIffMatches | azure-iot-device/azure/iot/device/iothub/pipeline/mqtt_topic_iothub.py:73-86 | A text with slashes occurs in a topic if and only if its levels occur in a row, the first as a suffix and the last as a prefix of a level |
| TopicLevels.StartsWithIffBegins | azure-iot-device/azure/iot/device/iothub/pipeline/mqtt_topic_iothub.py:280-302 | A topic starts with such a text if and only if its levels begin with the text's levels, the last one possibly cut short |
| TopicLevels.SplitConcat | azure-iot-device/azure/iot/device/iothub/pipeline/mqtt_topic_iothub.py:96-97 | Splitting a concatenation glues the last part of the one to the first part of the other |
| TopicDispatch.MethodTopicDispatches | azure-iot-device/azure/iot/device/iothub/pipeline/pipeline_stages_iothub_mqtt.py:193-203 | A canonical method topic takes its own branch, whatever the device is called, and yields its name; the request id comes back if and only if the name has no question mark or the text behind it happens to yield the same id |
| TopicDispatch.QuestionMarkInNameFails | azure-iot-device/azure/iot/device/iothub/pipeline/mqtt_topic_iothub.py:157-163 | A method name with a question mark and no equals sign makes the call fail |
| TopicTexts.MethodText | azure-iot-device/azure/iot/device/iothub/pipeline/mqtt_topic_iothub.py:119 | The canonical method topic written out |
| TopicTexts.TwinResponseText | azure-iot-device/azure/iot/device/iothub/pipeline/mqtt_topic_iothub.py:281 | The canonical twin response topic written out |
| TopicTexts.PatchText | azure-iot-device/azure/iot/device/iothub/pipeline/mqtt_topic_iothub.py:302 | The desired-properties topic written out |
| TopicTexts.C2dText | azure-iot-device/azure/iot/device/iothub/pipeline/mqtt_topic_iothub.py:36 | The cloud-to-device topic written out |
| TopicTexts.InputText | azure-iot-device/azure/iot/device/iothub/pipeline/mqtt_topic_iothub.py:81 | The input topic written out |
| TopicTexts.ProvisioningTexts | azure-iot-device/azure/iot/device/provisioning/pipeline/constant.py:29-34 | The two provisioning topics written out |
| TopicTexts.OneLevelPassedUp | azure-iot-device/azure/iot/device/iothub/pipeline/pipeline_stages_iothub_mqtt.py:223-225 | A topic of a single level is passed up as it is |
| TopicTexts.NoModuleIsNone | azure-iot-device/azure/iot/device/iothub/pipeline/mqtt_topic_iothub.py:83 | A device without modules listens as if its module were called `None` |
| TopicTexts.TwinStatusMustBeNumber | azure-iot-device/azure/iot/device/iothub/pipeline/pipeline_stages_iothub_mqtt.py:207 | A twin response whose status is not a number raises |
| TopicTexts.MethodWithoutQueryFails | azure-iot-device/azure/iot/device/iothub/pipeline/mqtt_topic_iothub.py:160 | A method topic without a query part raises |
| TopicTexts.NoRequestIdRaises | azure-iot-device/azure/iot/device/iothub/pipeline/mqtt_topic_iothub.py:160-161 | A query part that names no request id raises |
| TopicDispatch.MarkedNameReads | azure-iot-device/azure/iot/device/iothub/pipeline/mqtt_topic_iothub.py:160 | With a question mark in the name the request id is read from the name |
| TopicDispatch.TwinResponseDispatches | azure-iot-device/azure/iot/device/iothub/pipeline/pipeline_stages_iothub_mqtt.py:205-213 | A canonical twin response takes its own branch and yields its status and request id |
| TopicDispatch.PatchDispatches | azure-iot-device/azure/iot/device/iothub/pipeline/pipeline_stages_iothub_mqtt.py:215-221 | A desired-properties topic takes its own branch |
| TopicDispatch.C2dDispatches | azure-iot-device/azure/iot/device/iothub/pipeline/pipeline_stages_iothub_mqtt.py:178-183 | A cloud-to-device topic takes its own branch and yields exactly the encoded properties |
| TopicDispatch.InputDispatchesIff | azure-iot-device/azure/iot/device/iothub/pipeline/pipeline_stages_iothub_mqtt.py:185-191 | An input topic takes its own branch, with its input name and properties, if and only if it is not the one accidental match of the cloud-to-device test |
| TopicDispatch.InputLooksLikeC2dIff | azure-iot-device/azure/iot/device/iothub/pipeline/mqtt_topic_iothub.py:67-75 | That match in terms of names: device `inputs`, a module ending in `devices`, input `messages`, properties starting with `devicebound` |
| TopicDispatch.DeviceboundPropertyMisleads | azure-iot-device/azure/iot/device/iothub/pipeline/mqtt_topic_iothub.py:73-74 | The match does occur: module `devices` of device `inputs`, input `messages`, first property `devicebound` |
| TopicDispatch.RequestIdOfTopic | azure-iot-device/azure/iot/device/iothub/pipeline/mqtt_topic_iothub.py:147-163 | The request id is read back from the query part, whatever other entries follow it |
| TopicDispatch.RequestPartYieldsId | azure-iot-device/azure/iot/device/iothub/pipeline/mqtt_topic_iothub.py:131-144 | The query part splits and decodes to the request id it was built with |
| TopicDispatch.ExtrasKeepRequestId | azure-iot-device/azure/iot/device/iothub/pipeline/mqtt_topic_iothub.py:138-142 | Further entries with other keys do not disturb the request id |
| TopicDispatch.IotHubTopicsAreNotC2d | azure-iot-device/azure/iot/device/iothub/pipeline/mqtt_topic_iothub.py:67-75 | Method and twin topics are never taken for cloud-to-device messages |
| TopicDispatch.IotHubTopicsAreNotInput | azure-iot-device/azure/iot/device/iothub/pipeline/mqtt_topic_iothub.py:78-86 | Nor for input messages |
| TopicDispatch.TwinTopicsAreNotMethods | azure-iot-device/azure/iot/device/iothub/pipeline/mqtt_topic_iothub.py:103-112 | Nor twin topics for methods |
| SasToken.TokenRoundTripIff | azure-iot-device/azure/iot/device/iothub/auth/base_renewable_token_authentication_provider.py:121-136 | Parsing a generated token succeeds with the same host, device and module if and only if none of them holds a slash, the module is not the empty text, and the key name has no space and no `&`; what else the token holds is `TokenText` and `TokenFields` |
| SasText.TokenText | azure-iot-device/azure/iot/device/iothub/auth/base_renewable_token_authentication_provider.py:19-20 | The printed token is one of the two formats, with the quoted resource, the signature, the expiry in decimal and the key name each in its place |
| SasText.ResourceText | azure-iot-device/azure/iot/device/iothub/auth/base_renewable_token_authentication_provider.py:122-124 | The resource is host, device and, if there is one, module, each in its place |
| SasText.TokenFields | azure-iot-device/azure/iot/device/iothub/auth/base_renewable_token_authentication_provider.py:129-134 | Split and read, the token holds exactly those fields under `sr`, `sig`, `se` and, with a key name, `skn` |
| SasText.ParseAcceptsIff | azure-iot-device/azure/iot/device/iothub/auth/sas_authentication_provider.py:64-116 | The parser accepts a text if and only if it has one space, `key=value` arguments with different known keys, non-empty resource, signature and expiry, and three or more resource segments; the identity is the first, third and fifth segment |
| SasText.WellFormedIff | azure-iot-device/azure/iot/device/iothub/auth/sas_authentication_provider.py:66-83 | Counting the read keys reveals exactly the repeated ones |
| SasText.SplitOnceIsFirst | azure-iot-device/azure/iot/device/iothub/auth/sas_authentication_provider.py:67 | An argument is cut at its first equals sign |
| SasToken.ResourceRoundTripIff | azure-iot-device/azure/iot/device/iothub/auth/sas_authentication_provider.py:87-104 | Reading the resource back yields the three ids if and only if none of them holds a slash and the module is not the empty text |
| SasToken.CleanTokenParses | azure-iot-device/azure/iot/device/iothub/auth/sas_authentication_provider.py:64-100 | For clean signatures and key names and any ids, parsing reduces to reading the resource |
| SasToken.UncleanTokenFails | azure-iot-device/azure/iot/device/iothub/auth/sas_authentication_provider.py:64-85 | A key name with a space or an `&` makes parsing fail |
| SasToken.TooManyArguments | azure-iot-device/azure/iot/device/iothub/auth/sas_authentication_provider.py:78-83 | A token with more arguments than valid keys is rejected, one way or another |
| SasToken.ArgumentsAreDistinct | azure-iot-device/azure/iot/device/iothub/auth/sas_authentication_provider.py:66-67 | Whatever the arguments, the keys read from them are distinct, so counting them reveals a repeated one |
| PollingTheorems.RunKeepsInv | azure-iot-device/azure/iot/device/provisioning/internal/polling_machine.py:61-158 | In every good run: registering and polling mean exactly one outstanding request, the one sent last, and a running query timer, waiting means none and a running polling timer, a finished registration means no running timer; no running timer is ever replaced |
| PollingTheorems.StepKeepsInvIff | azure-iot-device/azure/iot/device/provisioning/internal/polling_machine.py:220-299 | One task keeps that invariant if and only if it is none of: a reply whose status is not a number; a successful reply that raises while it or its completion is decoded; a reply to wait for with an interval that is not a number; a throttled query whose operation id cannot be recovered |
| PollingTheorems.DerailedStallsOrStrays | azure-iot-device/azure/iot/device/provisioning/internal/polling_machine.py:220-299 | Such a reply leaves the machine in its phase or waiting to poll with no timer running and the request still in the table, or waiting to poll with an operation id other than the latest |
| PollingTheorems.FirstReplyKeepsInvIff | azure-iot-device/azure/iot/device/provisioning/internal/polling_machine.py:220-242 | The condition is met from the very start: the first reply to any registration breaks the invariant exactly if it is one of those |
| PollingTheorems.FirstQueryReplyKeepsInvIff | azure-iot-device/azure/iot/device/provisioning/internal/polling_machine.py:244-278 | The same for the first reply to a status query, for every operation id the service may hand out |
| PollingTheorems.MalformedIntervalWaitsForever | azure-iot-device/azure/iot/device/provisioning/internal/polling_machine.py:352-361 | An "assigning" reply with an interval that is not a number leaves the machine waiting with no timer and the request in the table |
| PollingTheorems.NextRequestCarriesLatest | azure-iot-device/azure/iot/device/provisioning/internal/polling_machine.py:199-278 | Over any number of throttles and "assigning" replies, an event sends exactly the request that is due: a registration once subscribed, and when the polling timer fires a query with the operation id of the latest successful reply that led to it, or a registration if there is none |
| PollingOutcomes.RunAgreesWithVerdict | azure-iot-device/azure/iot/device/provisioning/internal/polling_machine.py:235-321 | In every good run the machine has completed, holding the reply, if and only if the request in flight got a decodable "assigned" or "failed"; it is in error, holding the failure, if and only if that reply had a status of 300 to 428 or any other status text, or the query timer ended first; it is cancelling if and only if it was cancelled first |
| PollingOutcomes.CallersHearTheVerdict | azure-iot-device/azure/iot/device/provisioning/internal/polling_machine.py:417-446 | In every good run the callbacks that have run are exactly those due: when the disconnect after the verdict ends, the register callback gets the final reply or the failure, or the cancel callback runs |
| PollingOutcomes.PhasesFollowTable | azure-iot-device/azure/iot/device/provisioning/internal/polling_machine.py:62-133 | In every good run each event leads to the phase the transition table gives |
| PollingOutcomes.EveryStepAgrees | azure-iot-device/azure/iot/device/provisioning/internal/polling_machine.py:220-321 | One event does what verdict and table say and starts one disconnect exactly when it decides |
| PollingOutcomes.LateReplyReplacesTimeout | azure-iot-device/azure/iot/device/provisioning/internal/polling_machine.py:228-240 | The verdict after a timeout is that of a failing reply that comes before the disconnect has ended |
| PollingOutcomes.LateAnswer | azure-iot-device/azure/iot/device/provisioning/internal/polling_machine.py:220-299 | Every late reply to a timed-out request, with the failure it leaves |
| PollingOutcomes.DisconnectHears | azure-iot-device/azure/iot/device/provisioning/internal/polling_machine.py:417-446 | The end of a disconnect runs the one callback that is due |
| PollingOutcomes.OthersCallNothing | azure-iot-device/azure/iot/device/provisioning/internal/polling_machine.py:160-176 | Nothing else runs a callback, and only `register` and `cancel` set one |
| PollingOutcomes.RegisterRaisesIff | azure-iot-device/azure/iot/device/provisioning/internal/polling_machine.py:62-75 | When `register` raises |
| PollingOutcomes.CancelRaisesIff | azure-iot-device/azure/iot/device/provisioning/internal/polling_machine.py:121-132 | When `cancel` raises |
| PollingOutcomes.RegisterStarts | azure-iot-device/azure/iot/device/provisioning/internal/polling_machine.py:160-180 | `register` starts over from the beginning and from a failure, and otherwise only replaces the callback |
| PollingTheorems.OneCallbackAtMost | azure-iot-device/azure/iot/device/provisioning/internal/polling_machine.py:417-446 | The register and cancel callbacks exclude each other and each runs at most once |
| PollingTheorems.ResponseWhileRegistering | azure-iot-device/azure/iot/device/provisioning/internal/polling_machine.py:220-242 | Every reply to a registration request, with the exact condition for the invariant |
| PollingTheorems.ResponseWhilePolling | azure-iot-device/azure/iot/device/provisioning/internal/polling_machine.py:244-278 | Every reply to a status query, with the exact condition for the invariant |
| PollingTheorems.ThrottleWhilePolling | azure-iot-device/azure/iot/device/provisioning/internal/polling_machine.py:260-270 | A throttled query keeps the invariant if and only if its interval is a number and the operation id is plain |
| PollingTheorems.ResponseAfterTheEnd | azure-iot-device/azure/iot/device/provisioning/internal/request_response_provider.py:82-86 | Replies after the end of a registration change neither its outcome nor its timers |
| PollingTheorems.CancelKeepsInv | azure-iot-device/azure/iot/device/provisioning/internal/polling_machine.py:121-132 | Cancelling from any state keeps the invariant |
| PollingTheorems.DisconnectKeepsInv | azure-iot-device/azure/iot/device/provisioning/internal/polling_machine.py:417-446 | So does the end of a disconnect, which runs at most one callback |
| PollingTheorems.PollKeepsInv | azure-iot-device/azure/iot/device/provisioning/internal/polling_machine.py:343-361 | So does the polling timer, which registers again or polls |
| PollingTopics.RecoverIff | azure-iot-device/azure/iot/device/provisioning/internal/polling_machine.py:261-269 | The operation id is recovered from the stored topic if and only if it is not empty, has no `$`, `&`, `;` or `+`, and no well-formed percent escape |
| PollingTopics.RecoverReads | azure-iot-device/azure/iot/device/provisioning/internal/polling_machine.py:264-268 | What is recovered in every case: the decoded part in front of the first separator, or what follows it |
| PollingTopics.UnquoteIsIdentityIff | azure-iot-device/azure/iot/device/provisioning/internal/polling_machine.py:265-267 | Decoding leaves a text alone if and only if it has neither `+` nor an escape |
| PollingReplies.UndecodableIff | azure-iot-device/azure/iot/device/provisioning/internal/polling_machine.py:401-415 | Decoding a reply raises if and only if it is not JSON, or is a number, a boolean or null, or a text or list that contains one of the two keys |
| PollingReplies.CompletesIff | azure-iot-device/azure/iot/device/provisioning/internal/polling_machine.py:363-399 | A final reply is an object, and its completion decodes if and only if the registration state is absent, null, or of a shape on which none of the six lookups raises |
| PollingReplies.MemberReadsIff | azure-iot-device/azure/iot/device/provisioning/internal/polling_machine.py:410-413 | `key not in value` and `value[key]` raise for exactly those shapes |
| PollingMachine.Machine.constructor | azure-iot-device/azure/iot/device/provisioning/internal/polling_machine.py:34-49 | Starts disconnected, without timers or requests |
| PollingMachine.Machine.Register | azure-iot-device/azure/iot/device/provisioning/internal/polling_machine.py:160-180 | Stores the callback, then starts a registration, does nothing or raises, by state |
| PollingMachine.Machine.Cancel | azure-iot-device/azure/iot/device/provisioning/internal/polling_machine.py:169-176 | Stores the callback, then stops both timers and disconnects, or raises, by state |
| PollingMachine.Machine.SetQueryTimer | azure-iot-device/azure/iot/device/provisioning/internal/polling_machine.py:332-341 | Starts a new query timer; a running one it replaces is logged |
| PollingMachine.Machine.ClearAllTimers | azure-iot-device/azure/iot/device/provisioning/internal/polling_machine.py:323-330 | Stops whichever timers were ever set |
| PollingMachine.Machine.SendRegisterRequest | azure-iot-device/azure/iot/device/provisioning/internal/polling_machine.py:182-197 | Starts the query timer, files the topic and the request, sends it without operation id |
| PollingMachine.Machine.TriggerRegisterRequest | azure-iot-device/azure/iot/device/provisioning/internal/polling_machine.py:76-87 | The transition around it, from initializing and waiting only |
| PollingMachine.Machine.SendRequest | azure-iot-device/azure/iot/device/provisioning/internal/request_response_provider.py:29-45 | Files topic and handler under the request and logs what goes out |
| PollingMachine.Machine.QueryOperationStatus | azure-iot-device/azure/iot/device/provisioning/internal/polling_machine.py:199-218 | Starts the query timer, files the query topic and the request, sends it with the operation id |
| PollingMachine.Machine.OnSubscribeCompleted | azure-iot-device/azure/iot/device/provisioning/internal/polling_machine.py:448-450 | Sends the registration once subscribed |
| PollingMachine.Machine.WaitForInterval | azure-iot-device/azure/iot/device/provisioning/internal/polling_machine.py:343-361 | Changes the phase from registering and polling only, then raises if the interval is not a number, else starts the polling timer for the operation id in hand |
| PollingMachine.Machine.CallError | azure-iot-device/azure/iot/device/provisioning/internal/polling_machine.py:312-316 | Ends a live registration in error |
| PollingMachine.Machine.CallComplete | azure-iot-device/azure/iot/device/provisioning/internal/polling_machine.py:318-321 | Ends a live registration successfully |
| PollingMachine.Machine.ReceiveResponse | azure-iot-device/azure/iot/device/provisioning/internal/request_response_provider.py:67-86 | Looks up the handler, runs it, and forgets the request unless the handler raised |
| PollingMachine.Machine.OnRegisterResponseReceived | azure-iot-device/azure/iot/device/provisioning/internal/polling_machine.py:220-242 | Stops the query timer, then: a status that is not a number raises; throttle, failure or success |
| PollingMachine.Machine.OnQueryResponseReceived | azure-iot-device/azure/iot/device/provisioning/internal/polling_machine.py:244-278 | Stops both timers, then: a status that is not a number raises; throttle with recovery of the operation id, failure or success |
| PollingMachine.Machine.RetryQuery | azure-iot-device/azure/iot/device/provisioning/internal/polling_machine.py:261-270 | Recovers the operation id from the filed topic and waits with it |
| PollingMachine.Machine.RunHandler | azure-iot-device/azure/iot/device/provisioning/internal/request_response_provider.py:82-85 | Runs the handler that was filed with the request |
| PollingMachine.Machine.ProcessSuccessfulResponse | azure-iot-device/azure/iot/device/provisioning/internal/polling_machine.py:280-299 | Raises on undecodable replies; "assigning" waits, "assigned" and "failed" complete unless the completion raises, anything else is an error; `RunAgreesWithVerdict` fixes which end is which |
| PollingMachine.Machine.TimeUpQuery | azure-iot-device/azure/iot/device/provisioning/internal/polling_machine.py:332-338 | The query timer ends the registration in error |
| PollingMachine.Machine.TimeUpPolling | azure-iot-device/azure/iot/device/provisioning/internal/polling_machine.py:343-350 | The polling timer registers again without an operation id and polls with one |
| PollingMachine.Machine.OnDisconnectCompleted | azure-iot-device/azure/iot/device/provisioning/internal/polling_machine.py:417-446 | Runs and forgets the callback the disconnect was started for |
| RegistrationRun.Registration.constructor | azure-iot-device/azure/iot/device/provisioning/internal/polling_machine.py:34-49 | A new machine to which nothing has happened |
| RegistrationRun.Registration.Handle | azure-iot-device/azure/iot/device/provisioning/internal/polling_machine.py:61-158 | The run theorems as a contract of the object: as long as the run is good the invariant and the verdict hold, exactly the due request goes out, and exactly the due callbacks have run, at most one |
| RegistrationRun.Registration.Dispatch | azure-iot-device/azure/iot/device/provisioning/internal/polling_machine.py:160-361 | Every event does on the object exactly what the model's step does |
| Inboxes.RequestsAreConserved | azure-iot-device/azure/iot/device/iothub/inbox_manager.py:125-140 | Over any history of askings and routings every method request enters exactly one inbox, the generic one or the one of its name: none lost, none duplicated |
| Inboxes.NeverMisfiled | azure-iot-device/azure/iot/device/iothub/inbox_manager.py:135-139 | Over any history no inbox of another name is given the request |
| Inboxes.RouteAppends | azure-iot-device/azure/iot/device/iothub/inbox_manager.py:135-140 | One routing appends the request to the named inbox or else to the generic one, and to no other |
| Inboxes.NamedInboxGetsLaterRequests | azure-iot-device/azure/iot/device/iothub/inbox_manager.py:58-78 | A named inbox exists if and only if its name was asked for, and was given exactly the requests of that name routed later, in order |
| Inboxes.Inbox.constructor | azure-iot-device/azure/iot/device/iothub/sync_inbox.py:70-72 | Starts empty |
| Inboxes.Inbox.Put | azure-iot-device/azure/iot/device/iothub/sync_inbox.py:79-87 | Appends at the end |
| Inboxes.Inbox.Get | azure-iot-device/azure/iot/device/iothub/sync_inbox.py:89-104 | Takes the oldest item: what was put equals, in order, what was received, cleared and is still queued; an empty inbox yields nothing |
| Inboxes.Inbox.Clear | azure-iot-device/azure/iot/device/iothub/sync_inbox.py:113-117 | Removes everything, and the history says so |
| Inboxes.ClearInboxes | azure-iot-device/azure/iot/device/iothub/inbox_manager.py:91-92 | The loop empties every inbox once, in any order |
| Inboxes.Manager.constructor | azure-iot-device/azure/iot/device/iothub/inbox_manager.py:22-32 | Three different empty inboxes and no others |
| Inboxes.Manager.GetInputMessageInbox | azure-iot-device/azure/iot/device/iothub/inbox_manager.py:34-49 | The inbox of that input, created at the first asking, different from all others; existing ones stay |
| Inboxes.Manager.GetMethodRequestInbox | azure-iot-device/azure/iot/device/iothub/inbox_manager.py:58-78 | The inbox of that method, created at the first asking, or the generic one without a name |
| Inboxes.Manager.AddMethodRequestInbox | azure-iot-device/azure/iot/device/iothub/inbox_manager.py:71-74 | A new empty inbox for a new name keeps all inboxes different |
| Inboxes.Manager.RouteMethodRequest | azure-iot-device/azure/iot/device/iothub/inbox_manager.py:125-140 | Into the named inbox if and only if the name was asked for, else into the generic one; every other inbox is unchanged |
| Inboxes.Manager.RouteInputMessage | azure-iot-device/azure/iot/device/iothub/inbox_manager.py:94-112 | Dropped if and only if no inbox was asked for that input; every other inbox is unchanged |
| Inboxes.Manager.RouteC2dMessage | azure-iot-device/azure/iot/device/iothub/inbox_manager.py:114-123 | Into the one inbox for messages from the cloud |
| Inboxes.Manager.RouteTwinPatch | azure-iot-device/azure/iot/device/iothub/inbox_manager.py:142-151 | Into the one inbox for twin patches |
| Inboxes.Manager.ClearAllMethodRequests | azure-iot-device/azure/iot/device/iothub/inbox_manager.py:87-92 | Empties the generic and every named method inbox and nothing else |
| StageChain.UnhandledClimbsToRoot | azure-iot-device/azure/iot/device/common/pipeline/operation_flow.py:118-135 | An event no stage handles, raised anywhere, visits every stage above in reverse order and ends at the root |
| StageChain.HandlerStopsEvent | azure-iot-device/azure/iot/device/common/pipeline/pipeline_stages_base.py:134-143 | An event climbs to the nearest stage that handles it and no further |
| StageChain.Stage.constructor | azure-iot-device/azure/iot/device/common/pipeline/pipeline_stages_base.py:71-78 | A stage starts unlinked |
| StageChain.Pipeline.constructor | azure-iot-device/azure/iot/device/common/pipeline/pipeline_stages_base.py:71-78 | A chain of the root alone |
| StageChain.Pipeline.AppendStage | azure-iot-device/azure/iot/device/common/pipeline/pipeline_stages_base.py:202-217 | The walk to the tail and the link append the stage and change nothing else; the chain stays doubly linked, acyclic and rooted if and only if the stage was not in it and had no stage behind it |
| StageChain.Pipeline.HandleEvent | azure-iot-device/azure/iot/device/common/pipeline/operation_flow.py:118-135 | Following the links visits exactly the specified stages |
| SasRenewal.TokenOutlivesTimer | azure-iot-device/azure/iot/device/iothub/auth/base_renewable_token_authentication_provider.py:121-169 | Over any run of renewals, cancellations and firings at most one timer runs, and while it runs the token outlives the present by more than 119 seconds less the scheduling latency and the time for signing |
| SasRenewal.RunRenews | azure-iot-device/azure/iot/device/iothub/auth/base_renewable_token_authentication_provider.py:121-169 | Over any run: after a renewal exactly one timer runs, due 3480 seconds from then, and the token expires 3600 seconds after the renewal began |
| SasRenewal.RenewalLeavesOneTimer | azure-iot-device/azure/iot/device/iothub/auth/base_renewable_token_authentication_provider.py:121-169 | One renewal leaves that timer alone; a disconnect leaves none |
| SasRenewal.StepKeepsInv | azure-iot-device/azure/iot/device/iothub/auth/base_renewable_token_authentication_provider.py:140-169 | Each event keeps the single timer in the slot and the expiry beyond its due time by that margin |
| SasRenewal.Provider.constructor | azure-iot-device/azure/iot/device/iothub/auth/base_renewable_token_authentication_provider.py:55-63 | Starts without token and timer |
| SasRenewal.Provider.CancelTokenUpdateTimer | azure-iot-device/azure/iot/device/iothub/auth/base_renewable_token_authentication_provider.py:140-148 | Clears the slot and stops the timer it held |
| SasRenewal.Provider.GenerateNewSasToken | azure-iot-device/azure/iot/device/iothub/auth/base_renewable_token_authentication_provider.py:121-138 | Computes the expiry before signing, starts the timer after it |
| SasRenewal.Provider.ScheduleTokenUpdate | azure-iot-device/azure/iot/device/iothub/auth/base_renewable_token_authentication_provider.py:150-169 | Cancels the previous timer before starting the next |
| SasRenewal.Provider.TimerFires | azure-iot-device/azure/iot/device/iothub/auth/base_renewable_token_authentication_provider.py:163-165 | A firing renews the token |

## Left out

- Operations as shared objects: an operation is a value that carries its callback and error, so two references to one
  operation are not modelled; the fields of the three stages and the root's `connected` flag sit in one object.
- An operation is submitted without an error and with a callback of the stages above or the application; submitting one
  operation object twice before it completes is the same as two operations with one identity.
- `SetMQTTConnectionArgsOperation` is assumed to have run first; `delegate_to_different_op` and the stages above the
  ensure stage appear only through their callbacks.
- The composition of request coordination with the connection pipeline: a send result is an event of its own.
- ConnectionModel.RunTransport: clears the pending slot before it completes a cancelled operation, while the code clears
  it afterwards; `RunNeverCancels` shows that the branch is never taken from any reachable state.
- ConnectionPipeline.Pipeline.CancelPendingConnectionOp: the same order, in the same branch that is never taken.
- ConnectionPipeline.Pipeline.TransportExecuteOp: has no branch for `SetMQTTConnectionArgsOperation`, which has run first.
- Handlers of the MQTT library run as separate tasks; an acknowledgement that arrives before the library call returns is
  modelled as a completion inside that call.
- Application callbacks that submit operations while they run, and exceptions raised by them, which `complete_op` catches.
- Sockets, TLS, threads and executors, HMAC and base64, JSON decoding of twin bodies and method payloads, logging, clients.
- Texts are UTF-8 bytes, one character below 256 each; invalid UTF-8 in incoming escapes is decoded by the code with
  replacement characters and here byte by byte.
- The payloads of method requests and patches; `int` on texts with blanks or signs; an expiry given as a date; property
  values that are not strings.
- The MQTT library rejects a topic with `+`, so a message with a space in its properties cannot be published at all;
  `SuffixAlphabet` says when the suffix has one, the rejection itself is not modelled.
- `~` is kept by quoting, as in Python 3.7 and later; earlier versions escape it.
- Topic builders for publishing method responses and twin requests: single format strings.
- A token round trip takes a signature that is not empty and consists of quoted text, as the signing code produces it.
- In query strings both `&` and `;` separate entries, as `parse_qs` did in the Python versions the repository supports.
- How long the polling and query timers run, whether an interval is too long for the platform's timers, and the fields of
  a completed registration; status and interval come in as numbers or as not numbers, without their spelling.
- Exceptions raised by the provisioning pipeline itself when it is asked to send, subscribe or disconnect.
- PollingTheorems.RunKeepsInv: excludes a `register` call that retries after an error, because replies and disconnects of
  the previous attempt may still be under way; repeated calls may replace a callback but start nothing else.
- PollingTheorems.OneCallbackAtMost: inherits that hypothesis.
- In states no run reaches, stopping a timer that was never set does nothing here and raises in the code.
- Inboxes.Inbox.Get: models a `get` that does not wait; blocking and timeouts are left out, as are membership tests and
  the asynchronous inbox.
- The moment between the two assignments that cancel a renewal timer, and a renewal or firing during another one's signing.
