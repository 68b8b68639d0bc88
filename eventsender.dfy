/**
 * The event sender: the owner of the outbound connection to the message
 * broker, with a `started` flag that guards every send and publish.
 *
 * The messaging library and the broker behind it are foreign code. They are
 * modelled by `Broker`, which records every call made on it in a ghost log
 * and answers each kind of call with a reply fixed by its caller, so the
 * sender's contracts hold for whatever the broker answers.
 */
module Events {
  import opened Wrappers

  /** The errors the sender returns; `Transport` is whatever the broker answered. */
  datatype Error =
    | SendBeforeStart      // "attempt to send before start"
    | PublishBeforeStart   // "attempt to publish before start"
    | Transport(message: string)

  /** The connection settings loaded for a service. */
  datatype Config = Config(serviceName: string)

  /** A command addressed to a named queue. */
  datatype CommandMessage = CommandMessage(contentType: string, body: string)

  /** An event published on a topic. */
  datatype TopicMessage = TopicMessage(topicName: string, contentType: string, body: string)

  /** One call made on the messaging library. */
  datatype Call =
    | Initialize(config: Config)
    | SendCommandTo(command: CommandMessage, queue: string)
    | PublishOnTopic(message: TopicMessage)
    | Close

  /** The queue every command goes to. */
  const CommandQueue := "iot-core"

  /** The messaging library together with the broker connection it hands out. */
  class Broker {
    ghost var log: seq<Call>
    var initReply: Option<Error>
    var sendReply: Option<Error>
    var publishReply: Option<Error>

    constructor (initReply: Option<Error>, sendReply: Option<Error>, publishReply: Option<Error>)
      ensures log == []
      ensures this.initReply == initReply && this.sendReply == sendReply && this.publishReply == publishReply
    {
      log := [];
      this.initReply, this.sendReply, this.publishReply := initReply, sendReply, publishReply;
    }

    /** Opens a connection; on success the connection is this broker, on failure there is none. */
    method Initialize(config: Config) returns (m: Broker?, err: Option<Error>)
      modifies this`log
      ensures log == old(log) + [Call.Initialize(config)]
      ensures err == initReply
      ensures m == if err == None then this else null
    {
      log := log + [Call.Initialize(config)];
      err := initReply;
      m := if err == None then this else null;
    }

    method SendCommandTo(command: CommandMessage, queue: string) returns (err: Option<Error>)
      modifies this`log
      ensures log == old(log) + [Call.SendCommandTo(command, queue)]
      ensures err == sendReply
    {
      log := log + [Call.SendCommandTo(command, queue)];
      err := sendReply;
    }

    method PublishOnTopic(message: TopicMessage) returns (err: Option<Error>)
      modifies this`log
      ensures log == old(log) + [Call.PublishOnTopic(message)]
      ensures err == publishReply
    {
      log := log + [Call.PublishOnTopic(message)];
      err := publishReply;
    }

    method Close()
      modifies this`log
      ensures log == old(log) + [Call.Close]
    {
      log := log + [Call.Close];
    }
  }

  class EventSender {
    const config: Config
    /** The broker this sender connects to. */
    const broker: Broker
    /** The connection handed out by the last `Start`, if any. */
    var messenger: Broker?
    var started: bool

    /** The only connection the sender ever holds is one to its own broker. */
    ghost predicate Valid()
      reads this
    {
      messenger == null || messenger == broker
    }

    /** A sender for `serviceName` that has not been started and holds no connection. */
    constructor (serviceName: string, broker: Broker)
      ensures Valid()
      ensures config == Config(serviceName) && this.broker == broker
      ensures !started && messenger == null
    {
      config := Config(serviceName);
      this.broker := broker;
      messenger := null;
      started := false;
    }

    /**
     * Sends `m` to the command queue. Before `Start` has succeeded it fails
     * and the broker sees nothing; afterwards it makes exactly one call and
     * returns the broker's answer as it is.
     */
    method Send(m: CommandMessage) returns (err: Option<Error>)
      requires Valid() && (started ==> messenger != null)
      modifies broker`log
      ensures !started ==> err == Some(SendBeforeStart) && broker.log == old(broker.log)
      ensures started ==> err == broker.sendReply && broker.log == old(broker.log) + [SendCommandTo(m, CommandQueue)]
    {
      if !started {
        err := Some(SendBeforeStart);
        return;
      }
      err := messenger.SendCommandTo(m, CommandQueue);
    }

    /**
     * Publishes `m` on its topic. Before `Start` has succeeded it fails and
     * the broker sees nothing; afterwards it makes exactly one call and
     * returns the broker's answer as it is.
     */
    method Publish(m: TopicMessage) returns (err: Option<Error>)
      requires Valid() && (started ==> messenger != null)
      modifies broker`log
      ensures !started ==> err == Some(PublishBeforeStart) && broker.log == old(broker.log)
      ensures started ==> err == broker.publishReply && broker.log == old(broker.log) + [PublishOnTopic(m)]
    {
      if !started {
        err := Some(PublishBeforeStart);
        return;
      }
      err := messenger.PublishOnTopic(m);
    }

    /**
     * Connects to the broker. The flag is set when the connection succeeds
     * and is otherwise left as it was; the broker's error is returned as it is.
     */
    method Start() returns (err: Option<Error>)
      requires Valid()
      modifies this`messenger, this`started, broker`log
      ensures Valid()
      ensures broker.log == old(broker.log) + [Initialize(config)]
      ensures err == broker.initReply
      ensures started == (old(started) || err == None)
      ensures messenger == if err == None then broker else null
    {
      var m;
      m, err := broker.Initialize(config);
      messenger := m;
      if err == None {
        started := true;
      }
    }

    /** Closes the connection and always succeeds; the flag is left as it was. */
    method Stop() returns (err: Option<Error>)
      requires Valid() && messenger != null
      modifies broker`log
      ensures broker.log == old(broker.log) + [Close]
      ensures err == None
    {
      messenger.Close();
      err := None;
    }
  }

  /**
   * Stopping does not end a started sender's life: a send after `Stop` still
   * reaches the broker and returns its answer.
   */
  method StopThenSend(s: EventSender, c: CommandMessage) returns (err: Option<Error>)
    requires s.Valid() && s.messenger != null && s.started
    modifies s.broker`log
    ensures s.started
    ensures s.broker.log == old(s.broker.log) + [Close, SendCommandTo(c, CommandQueue)]
    ensures err == s.broker.sendReply
  {
    var _ := s.Stop();
    err := s.Send(c);
  }

  /**
   * Likewise for publishing: a publish after `Stop` still reaches the broker
   * and returns its answer.
   */
  method StopThenPublish(s: EventSender, m: TopicMessage) returns (err: Option<Error>)
    requires s.Valid() && s.messenger != null && s.started
    modifies s.broker`log
    ensures s.started
    ensures s.broker.log == old(s.broker.log) + [Close, PublishOnTopic(m)]
    ensures err == s.broker.publishReply
  {
    var _ := s.Stop();
    err := s.Publish(m);
  }
}
