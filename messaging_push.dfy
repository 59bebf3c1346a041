/**
 * The push-token and metric rules of the messaging-push module: each public
 * operation reads the identified profile and the stored push token and hands
 * zero or one typed task to the background queue; `registerDeviceToken`
 * overwrites the stored token, `deleteDeviceToken` and `trackMetric` leave it
 * as it was.
 * The queue is modelled as the sequence of tasks handed to it.
 */
module MessagingPush {
  import opened Wrappers

  /** The push metrics the SDK reports. */
  datatype Metric = Delivered | Opened | Converted

  /** The device record of a push-token registration. */
  datatype Device = Device(token: string, platform: string, lastUsed: int, attributes: map<string, string>)

  /** The kinds of background task this module creates. */
  datatype QueueTaskType = RegisterPushToken | DeletePushToken | TrackPushMetric

  /** The tag stored with a task, naming the runner that executes it. */
  function RawValue(t: QueueTaskType): (tag: string)
    ensures tag == "registerPushToken" <==> t.RegisterPushToken?
    ensures tag == "deletePushToken" <==> t.DeletePushToken?
    ensures tag == "trackPushMetric" <==> t.TrackPushMetric?
  {
    match t
    case RegisterPushToken => "registerPushToken"
    case DeletePushToken => "deletePushToken"
    case TrackPushMetric => "trackPushMetric"
  }

  /** The task type a stored tag names, if any. */
  function ParseTaskType(tag: string): (r: Option<QueueTaskType>)
    ensures r.Some? ==> RawValue(r.value) == tag
    ensures r.None? <==> tag != "registerPushToken" && tag != "deletePushToken" && tag != "trackPushMetric"
  {
    if tag == "registerPushToken" then Some(RegisterPushToken)
    else if tag == "deletePushToken" then Some(DeletePushToken)
    else if tag == "trackPushMetric" then Some(TrackPushMetric)
    else None
  }

  /** Parsing a task type's tag gives back that type, and only tags of task types parse. */
  lemma TaskTypeRoundTrip(t: QueueTaskType, tag: string)
    ensures ParseTaskType(RawValue(t)) == Some(t)
    ensures ParseTaskType(tag) == Some(t) <==> tag == RawValue(t)
  {
  }

  /** The payload of a task. */
  datatype QueueTaskData =
    | RegisterPushNotificationData(profileIdentifier: string, device: Device)
    | DeletePushNotificationData(profileIdentifier: string, deviceToken: string)
    | MetricRequest(deliveryId: string, event: Metric, deviceToken: string)
  {
    /** The task type whose runner decodes this payload. */
    function Type(): QueueTaskType {
      match this
      case RegisterPushNotificationData(_, _) => RegisterPushToken
      case DeletePushNotificationData(_, _) => DeletePushToken
      case MetricRequest(_, _, _) => TrackPushMetric
    }
  }

  /** A task as handed to the background queue: its tag and its payload. */
  datatype QueueTask = QueueTask(tag: string, data: QueueTaskData)

  /** The tag of a task names the type of its payload. */
  predicate WellTyped(task: QueueTask) {
    ParseTaskType(task.tag) == Some(task.data.Type())
  }

  /** A task with the tag that belongs to its payload. */
  function TaskOf(data: QueueTaskData): (task: QueueTask)
    ensures WellTyped(task) && task.data == data
  {
    QueueTask(RawValue(data.Type()), data)
  }

  /**
   * The task registerDeviceToken enqueues: one only when a profile is
   * identified and the OS name is known.
   */
  function RegisterTask(identifier: Option<string>, osName: Option<string>, deviceToken: string,
                        now: int, defaultAttributes: map<string, string>): (r: Option<QueueTask>)
    ensures r.Some? <==> identifier.Some? && osName.Some?
    ensures r.Some? ==>
      && WellTyped(r.value)
      && r.value.tag == "registerPushToken"
      && r.value.data.RegisterPushNotificationData?
      && r.value.data.profileIdentifier == identifier.value
      && r.value.data.device.token == deviceToken
      && r.value.data.device.platform == osName.value
      && r.value.data.device.lastUsed == now
      && r.value.data.device.attributes == defaultAttributes
  {
    if identifier.None? || osName.None? then None
    else Some(TaskOf(RegisterPushNotificationData(identifier.value,
                       Device(deviceToken, osName.value, now, defaultAttributes))))
  }

  /**
   * The task deleteDeviceToken enqueues: one only when a profile is identified
   * and a push token is stored.
   */
  function DeleteTask(identifier: Option<string>, pushDeviceToken: Option<string>): (r: Option<QueueTask>)
    ensures r.Some? <==> identifier.Some? && pushDeviceToken.Some?
    ensures r.Some? ==>
      && WellTyped(r.value)
      && r.value.tag == "deletePushToken"
      && r.value.data.DeletePushNotificationData?
      && r.value.data.profileIdentifier == identifier.value
      && r.value.data.deviceToken == pushDeviceToken.value
  {
    if identifier.None? || pushDeviceToken.None? then None
    else Some(TaskOf(DeletePushNotificationData(identifier.value, pushDeviceToken.value)))
  }

  /** The task trackMetric enqueues, whatever the state. */
  function MetricTask(deliveryId: string, event: Metric, deviceToken: string): (task: QueueTask)
    ensures WellTyped(task) && task.tag == "trackPushMetric"
    ensures task.data.MetricRequest?
    ensures task.data.deliveryId == deliveryId && task.data.event == event
    ensures task.data.deviceToken == deviceToken
  {
    TaskOf(MetricRequest(deliveryId, event, deviceToken))
  }

  /** Zero or one task as a sequence of tasks. */
  function Enqueued(task: Option<QueueTask>): (s: seq<QueueTask>)
    ensures |s| <= 1
    ensures task.Some? <==> |s| == 1
    ensures task.Some? ==> s[0] == task.value
  {
    if task.Some? then [task.value] else []
  }

  class MessagingPushImplementation {
    /** The identified profile, from the profile store. */
    var identifier: Option<string>
    /** The push token kept in the global data store. */
    var pushDeviceToken: Option<string>
    /** The OS name from the device info, when available. */
    var osName: Option<string>
    /** The tasks handed to the background queue, oldest first. */
    var queue: seq<QueueTask>

    /** Every queued task carries the tag of its payload, so its runner can decode it. */
    ghost predicate Valid()
      reads this
    {
      forall i :: 0 <= i < |queue| ==> WellTyped(queue[i])
    }

    constructor (identifier: Option<string>, pushDeviceToken: Option<string>, osName: Option<string>)
      ensures Valid()
      ensures this.identifier == identifier && this.pushDeviceToken == pushDeviceToken
      ensures this.osName == osName && queue == []
    {
      this.identifier := identifier;
      this.pushDeviceToken := pushDeviceToken;
      this.osName := osName;
      queue := [];
    }

    /**
     * Stores `deviceToken` as the push token, always; when a profile is
     * identified and the OS name is known, also enqueues its registration.
     * `now` and `defaultAttributes` stand for the clock and the device
     * attributes provider.
     */
    method RegisterDeviceToken(deviceToken: string, now: int, defaultAttributes: map<string, string>)
      requires Valid()
      modifies this
      ensures Valid()
      ensures pushDeviceToken == Some(deviceToken)
      ensures identifier == old(identifier) && osName == old(osName)
      ensures queue == old(queue) + Enqueued(RegisterTask(identifier, osName, deviceToken, now, defaultAttributes))
    {
      pushDeviceToken := Some(deviceToken);
      if identifier.None? {
        return;
      }
      if osName.None? {
        return;
      }
      var task := TaskOf(RegisterPushNotificationData(identifier.value,
                           Device(deviceToken, osName.value, now, defaultAttributes)));
      queue := queue + [task];
    }

    /**
     * Enqueues the deletion of the stored push token when a profile is
     * identified and a token is stored; the stored token itself is kept.
     */
    method DeleteDeviceToken()
      requires Valid()
      modifies this
      ensures Valid()
      ensures pushDeviceToken == old(pushDeviceToken)
      ensures identifier == old(identifier) && osName == old(osName)
      ensures queue == old(queue) + Enqueued(DeleteTask(identifier, pushDeviceToken))
    {
      if identifier.None? {
        return;
      }
      if pushDeviceToken.None? {
        return;
      }
      var task := TaskOf(DeletePushNotificationData(identifier.value, pushDeviceToken.value));
      queue := queue + [task];
    }

    /** Enqueues one push metric, whatever the identified profile and stored token. */
    method TrackMetric(deliveryId: string, event: Metric, deviceToken: string)
      requires Valid()
      modifies this
      ensures Valid()
      ensures pushDeviceToken == old(pushDeviceToken)
      ensures identifier == old(identifier) && osName == old(osName)
      ensures queue == old(queue) + [MetricTask(deliveryId, event, deviceToken)]
    {
      queue := queue + [TaskOf(MetricRequest(deliveryId, event, deviceToken))];
    }
  }

  /**
   * With a profile identified and the OS name known, registering a token and
   * then deleting it enqueues a registration and a deletion of that same token
   * for that profile, and the token stays stored.
   */
  method RegisterThenDelete(identifier: string, osName: string, deviceToken: string,
                            now: int, defaultAttributes: map<string, string>)
    returns (tasks: seq<QueueTask>, stored: Option<string>)
    ensures |tasks| == 2
    ensures tasks[0].tag == "registerPushToken" && tasks[0].data.RegisterPushNotificationData?
    ensures tasks[1].tag == "deletePushToken" && tasks[1].data.DeletePushNotificationData?
    ensures tasks[0].data.profileIdentifier == identifier == tasks[1].data.profileIdentifier
    ensures tasks[0].data.device.token == deviceToken == tasks[1].data.deviceToken
    ensures stored == Some(deviceToken)
  {
    var push := new MessagingPushImplementation(Some(identifier), None, Some(osName));
    push.RegisterDeviceToken(deviceToken, now, defaultAttributes);
    push.DeleteDeviceToken();
    tasks, stored := push.queue, push.pushDeviceToken;
  }

  /** A call that changes or reads the stored push token. */
  datatype TokenCall = Register(token: string) | Delete

  /** The stored push token after `calls`: the last registered token, else `initial`. */
  function LastRegistered(initial: Option<string>, calls: seq<TokenCall>): Option<string>
  {
    if calls == [] then initial
    else match calls[|calls| - 1]
      case Register(token) => Some(token)
      case Delete => LastRegistered(initial, calls[..|calls| - 1])
  }

  /**
   * Without an identified profile, register and delete calls never enqueue
   * anything, whatever the stored token and the OS name: any sequence of them
   * leaves the queue empty and the last registered token stored.
   */
  method AnonymousTokenChanges(initialToken: Option<string>, osName: Option<string>, calls: seq<TokenCall>,
                               now: int, defaultAttributes: map<string, string>)
    returns (tasks: seq<QueueTask>, stored: Option<string>)
    ensures tasks == []
    ensures stored == LastRegistered(initialToken, calls)
  {
    var push := new MessagingPushImplementation(None, initialToken, osName);
    var i := 0;
    while i < |calls|
      invariant 0 <= i <= |calls|
      invariant push.Valid() && push.identifier == None
      invariant push.queue == []
      invariant push.pushDeviceToken == LastRegistered(initialToken, calls[..i])
    {
      assert calls[..i + 1][..i] == calls[..i];
      match calls[i] {
        case Register(token) =>
          push.RegisterDeviceToken(token, now, defaultAttributes);
        case Delete =>
          push.DeleteDeviceToken();
      }
      i := i + 1;
    }
    assert calls[..i] == calls;
    tasks, stored := push.queue, push.pushDeviceToken;
  }
}
