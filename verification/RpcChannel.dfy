/**
 One end of an RPC connection.  The calling end numbers its calls and remembers what to do when each is answered; the
 serving end looks services up and answers with the number it was given.  User messages are their serialised octets.
 */
module RpcChannels {
  import opened Bytes
  import opened RpcMeta
  import M = RpcMetaMessages
  import opened ProtobufCodecs
  import Codec

  // ---- Calls and services ----

  /** A call as `CallMethod` gets it; the response object and the closure may each be null. */
  datatype Call = Call(service: seq<Byte>, method_: seq<Byte>, request: seq<Byte>, hasResponse: bool, hasDone: bool)

  datatype Slot = Slot(hasResponse: bool, hasDone: bool)

  /** What a method does: which requests parse, and which responses it may give to a request. */
  datatype Method = Method(parses: seq<Byte> -> bool, answers: (seq<Byte>, seq<Byte>) -> bool)

  type Services = Option<map<seq<Byte>, map<seq<Byte>, Method>>>

  /** A request handed to a service, with the response object and closure made for it. */
  datatype Job = Job(id: nat, service: seq<Byte>, method_: seq<Byte>, request: seq<Byte>)

  /** What a response object holds: what it held before the call, or what was parsed into it. */
  datatype Held = Untouched | Holds(response: seq<Byte>)

  datatype Effect =
    | Nothing
    | Finished(id: nat, held: Held, runsDone: bool)  // response filled, closure run, response deleted
    | Dropped(id: nat, hadDone: bool)                // an entry without a response object: erased, and that is all
    | Replied(message: Meta)
    | Started(job: Job)

  // ---- Messages ----

  function Request(id: nat, c: Call): Meta {
    Meta(Some(REQUEST), Some(id), Some(c.service), Some(c.method_), Some(c.request), None, None, [])
  }

  function Answer(id: nat, response: seq<Byte>): Meta {
    Meta(Some(RESPONSE), Some(id), None, None, None, Some(response), None, [])
  }

  function ErrorAnswer(id: nat, error: int): Meta {
    Meta(Some(RESPONSE), Some(id), None, None, None, None, Some(error), [])
  }

  /** A message of type 1 that carries this call under this id, and nothing else. */
  predicate Asks(m: Meta, id: nat, c: Call) {
    && m.type_ == Some(1) && m.id == Some(id)
    && m.service == Some(c.service) && m.method_ == Some(c.method_) && m.request == Some(c.request)
    && m.response == None && m.error == None && m.unknown == []
  }

  /** A message of type 2 that answers this id with a response, an error code, or neither, and nothing else. */
  predicate Answers(m: Meta, id: nat, response: Option<seq<Byte>>, error: Option<int>) {
    && m.type_ == Some(2) && m.id == Some(id) && m.response == response && m.error == error
    && m.service == None && m.method_ == None && m.request == None && m.unknown == []
  }

  lemma MessagesSay(id: nat, c: Call, response: seq<Byte>, error: int)
    ensures Asks(Request(id, c), id, c)
    ensures Answers(Answer(id, response), id, Some(response), None)
    ensures Answers(ErrorAnswer(id, error), id, None, Some(error))
  {
  }

  function Or<T>(v: Option<T>, default_: T): T {
    if v.Some? then v.value else default_
  }

  // ---- Receiving ----

  /** The error code a request is answered with at once, or NO_ERROR if a service takes it. */
  function Verdict(services: Services, service: seq<Byte>, method_: seq<Byte>, request: seq<Byte>): (v: int)
    ensures v == 0 || v == 2 || v == 3 || v == 4
    ensures v == 2 <==> !(services.Some? && service in services.value)
    ensures v == 2 || v == 3 <==>
            !(services.Some? && service in services.value && method_ in services.value[service])
    ensures v == 0 <==>
            && services.Some? && service in services.value && method_ in services.value[service]
            && services.value[service][method_].parses(request)
  {
    if services.None? || service !in services.value then NO_SERVICE
    else if method_ !in services.value[service] then NO_METHOD
    else if !services.value[service][method_].parses(request) then INVALID_REQUEST
    else NO_ERROR
  }

  function HeldAfter(m: Meta): Held {
    if m.response.Some? then Holds(m.response.value) else Untouched
  }

  /** `onRpcMessage`: what becomes of the outstanding calls, and what else happens. */
  function React(outstandings: map<nat, Slot>, services: Services, m: Meta): (r: (map<nat, Slot>, Effect)) {
    var id := Or(m.id, 0);
    if Or(m.type_, REQUEST) == RESPONSE then
      if id !in outstandings then (outstandings, Nothing)
      else
        var slot := outstandings[id];
        (outstandings - {id},
         if slot.hasResponse then Finished(id, HeldAfter(m), slot.hasDone) else Dropped(id, slot.hasDone))
    else if Or(m.type_, REQUEST) == REQUEST then
      var job := Job(id, Or(m.service, []), Or(m.method_, []), Or(m.request, []));
      var error := Verdict(services, job.service, job.method_, job.request);
      (outstandings, if error == NO_ERROR then Started(job) else Replied(ErrorAnswer(id, error)))
    else (outstandings, Nothing)
  }

  /** A response nobody waits for, unknown or a duplicate, changes nothing; after any response its id is unknown. */
  lemma StrayResponse(outstandings: map<nat, Slot>, services: Services, m: Meta, again: Meta)
    requires m.type_ == Some(RESPONSE)
    ensures React(outstandings, services, m) == (outstandings, Nothing) <==> Or(m.id, 0) !in outstandings
    ensures again.type_ == Some(RESPONSE) && again.id == m.id ==>
              var after := React(outstandings, services, m).0; React(after, services, again) == (after, Nothing)
  {
  }

  // ---- The class ----

  method BuildRequest(id: nat, c: Call) returns (message: M.RpcMetaMessage)
    ensures fresh(message) && message.Valid() && message.Value() == Request(id, c)
    ensures Asks(message.Value(), id, c)
  {
    message := new M.RpcMetaMessage();
    message.SetType(REQUEST);
    message.SetId(id);
    message.SetService(c.service);
    message.SetMethod(c.method_);
    message.SetRequest(c.request);
  }

  method BuildAnswer(id: nat, response: seq<Byte>) returns (message: M.RpcMetaMessage)
    ensures fresh(message) && message.Valid() && message.Value() == Answer(id, response)
    ensures Answers(message.Value(), id, Some(response), None)
  {
    message := new M.RpcMetaMessage();
    message.SetType(RESPONSE);
    message.SetId(id);
    message.SetResponse(response);
  }

  method BuildErrorAnswer(id: nat, error: int) returns (message: M.RpcMetaMessage)
    requires ErrorCodeIsValid(error)
    ensures fresh(message) && message.Valid() && message.Value() == ErrorAnswer(id, error)
    ensures Answers(message.Value(), id, None, Some(error))
  {
    message := new M.RpcMetaMessage();
    message.SetType(RESPONSE);
    message.SetId(id);
    message.SetError(error);
  }

  const TAG: seq<Byte> := [82, 80, 67, 48]  // "RPC0"

  class RpcChannel {
    const codec: ProtobufCodecLite
    const services: Services
    var lastId: nat
    var outstandings: map<nat, Slot>

    constructor (services_: Services)
      ensures codec.tag == TAG && services == services_ && lastId == 0 && outstandings == map[]
    {
      codec := new ProtobufCodecLite(TAG);
      services := services_;
      lastId := 0;
      outstandings := map[];
    }

    method IncrementAndGet() returns (id: nat)
      modifies `lastId
      ensures id == lastId == old(lastId) + 1
    {
      id := lastId + 1;
      lastId := id;
    }

    /** Numbers the call, remembers it, and only then gives the connection the frame that carries it. */
    method CallMethod(c: Call) returns (sent: seq<Byte>)
      requires codec.tag == TAG
      modifies `lastId, `outstandings
      ensures lastId == old(lastId) + 1
      ensures outstandings == old(outstandings)[lastId := Slot(c.hasResponse, c.hasDone)]
      ensures sent == Codec.Encode(TAG, Request(lastId, c)) && Asks(Request(lastId, c), old(lastId) + 1, c)
    {
      var id := IncrementAndGet();
      var message := BuildRequest(id, c);
      outstandings := outstandings[id := Slot(c.hasResponse, c.hasDone)];
      sent := codec.Send(message);
    }

    /** The error code found by walking from the services to the method to the request. */
    method Look(job: Job) returns (error: int)
      ensures error == Verdict(services, job.service, job.method_, job.request)
    {
      error := WRONG_PROTO;
      if services.Some? {
        if job.service in services.value {
          var methods := services.value[job.service];
          if job.method_ in methods {
            if methods[job.method_].parses(job.request) {
              error := NO_ERROR;
            } else {
              error := INVALID_REQUEST;
            }
          } else {
            error := NO_METHOD;
          }
        } else {
          error := NO_SERVICE;
        }
      } else {
        error := NO_SERVICE;
      }
    }

    method OnRpcMessage(message: M.RpcMetaMessage) returns (effect: Effect, sent: seq<Byte>)
      requires message.Valid() && codec.tag == TAG
      modifies `outstandings
      ensures (outstandings, effect) == React(old(outstandings), services, message.Value())
      ensures sent == if effect.Replied? then Codec.Encode(TAG, effect.message) else []
      // a response
      ensures message.type_ == 2 ==>
                && outstandings == old(outstandings) - {message.id} && !effect.Started? && !effect.Replied?
                && (effect.Nothing? <==> message.id !in old(outstandings))
      ensures message.type_ == 2 && message.id in old(outstandings) ==>
                var slot := old(outstandings)[message.id];
                var held := if message.Value().response.Some? then Holds(message.Value().response.value) else Untouched;
                effect == if slot.hasResponse then Finished(message.id, held, slot.hasDone)
                          else Dropped(message.id, slot.hasDone)
      // a request
      ensures message.type_ == 1 ==>
                && outstandings == old(outstandings)
                && var error := Verdict(services, message.service, message.method_, message.request);
                && (error == 0 ==>
                      effect == Started(Job(message.id, message.service, message.method_, message.request)))
                && (error != 0 ==> effect.Replied? && Answers(effect.message, message.id, None, Some(error)))
      // anything else
      ensures message.type_ == 3 ==> outstandings == old(outstandings) && effect == Nothing && sent == []
    {
      effect, sent := Nothing, [];
      if message.type_ == RESPONSE {
        var id := message.id;
        if id in outstandings {
          var out := outstandings[id];
          outstandings := outstandings - {id};
          if out.hasResponse {
            var held := Untouched;
            if M.Response in message.hasBits {
              held := Holds(message.response);
            }
            effect := Finished(id, held, out.hasDone);
          } else {
            effect := Dropped(id, out.hasDone);
          }
        }
      } else if message.type_ == REQUEST {
        var job := Job(message.id, message.service, message.method_, message.request);
        var error := Look(job);
        if error == NO_ERROR {
          effect := Started(job);
        } else {
          var response := BuildErrorAnswer(message.id, error);
          effect := Replied(ErrorAnswer(message.id, error));
          sent := codec.Send(response);
        }
      }
    }

    /** The closure a service runs when it has its response. */
    method DoneCallback(response: seq<Byte>, id: nat) returns (sent: seq<Byte>)
      requires codec.tag == TAG
      ensures sent == Codec.Encode(TAG, Answer(id, response)) && Answers(Answer(id, response), id, Some(response), None)
    {
      var message := BuildAnswer(id, response);
      sent := codec.Send(message);
    }

    /** Destruction deletes the response and the closure of every call still outstanding, each once. */
    method Destruct() returns (responses: seq<nat>, closures: seq<nat>)
      ensures multiset(responses) == multiset(set k | k in outstandings && outstandings[k].hasResponse)
      ensures multiset(closures) == multiset(set k | k in outstandings && outstandings[k].hasDone)
    {
      responses, closures := [], [];
      var left := outstandings.Keys;
      while left != {}
        invariant left <= outstandings.Keys
        invariant multiset(responses) ==
                  multiset(set k | k in outstandings && k !in left && outstandings[k].hasResponse)
        invariant multiset(closures) == multiset(set k | k in outstandings && k !in left && outstandings[k].hasDone)
        decreases left
      {
        var k :| k in left;
        left := left - {k};
        if outstandings[k].hasResponse {
          responses := responses + [k];
        }
        if outstandings[k].hasDone {
          closures := closures + [k];
        }
      }
    }
  }
}
