/**
 * The model backend (`chat.completions.create`), as a scripted client: it
 * answers each request with the next response of its script and keeps the
 * message list of every request it receives. Running out of script ends
 * the run with `BackendExhausted`.
 */
module Backend {
  import opened Wrappers
  import opened Messages

  class Client {
    /** The responses not yet delivered, in order. */
    var script: seq<Response>
    /** The message list of every request so far, oldest first. */
    var requests: seq<seq<Message>>

    constructor (script: seq<Response>)
      ensures this.script == script && requests == []
    {
      this.script := script;
      requests := [];
    }

    /** One completion request over `messages`. */
    method Create(messages: seq<Message>) returns (r: Option<Response>)
      modifies this
      ensures requests == old(requests) + [messages]
      ensures old(script) == [] ==> r == None && script == []
      ensures old(script) != [] ==> r == Some(old(script)[0]) && script == old(script)[1..]
    {
      requests := requests + [messages];
      if script == [] {
        r := None;
      } else {
        r := Some(script[0]);
        script := script[1..];
      }
    }
  }
}
