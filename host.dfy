/**
 * The machine the deployment talks to, as an oracle: the Docker command line
 * (each command gets a scripted exit status and output), a clock in whole
 * seconds, and the HTTP health endpoint (each request gets a scripted status, or
 * raises, and takes a scripted time).
 */
module Host {
  import opened Wrappers

  /** What `subprocess.run` reports: the exit status and the captured standard output. */
  datatype Reply = Reply(exitCode: int, stdout: string)

  /** One `requests.get`: the status code, or None when it raised; and the seconds it took. */
  datatype Response = Response(status: Option<int>, took: nat)

  /** A log that grew by `s` and then by `t` grew by `s + t`. */
  lemma AppendedTwice<T>(a: seq<T>, s: seq<T>, b: seq<T>, t: seq<T>, c: seq<T>)
    requires b == a + s && c == b + t
    ensures c == a + s + t && |b| == |a| + |s|
  {
  }

  class Machine {
    /** Every command run so far, in order. */
    var issued: seq<seq<string>>
    /** The reply the n-th command run gets. */
    const reply: nat -> Reply
    /** `time.time()`, in whole seconds. */
    var clock: int
    /** Every URL requested so far, in order. */
    var requested: seq<string>
    /** The response the n-th request gets. */
    const response: nat -> Response

    constructor(reply: nat -> Reply, response: nat -> Response, clock: int)
      ensures this.reply == reply && this.response == response && this.clock == clock
      ensures issued == [] && requested == []
    {
      this.reply := reply;
      this.response := response;
      this.clock := clock;
      issued := [];
      requested := [];
    }

    /** `subprocess.run(cmd, ...)`. */
    method Run(cmd: seq<string>) returns (r: Reply)
      modifies this
      ensures r == reply(|old(issued)|)
      ensures issued == old(issued) + [cmd]
      ensures clock == old(clock) && requested == old(requested)
    {
      r := reply(|issued|);
      issued := issued + [cmd];
    }

    /** `time.time()`. */
    method Now() returns (t: int)
      ensures t == clock
    {
      t := clock;
    }

    /** `requests.get(url)`: the status code, or None when the request raised. */
    method Get(url: string) returns (status: Option<int>)
      modifies this
      ensures status == response(|old(requested)|).status
      ensures requested == old(requested) + [url]
      ensures clock == old(clock) + response(|old(requested)|).took
      ensures issued == old(issued)
    {
      var r := response(|requested|);
      status := r.status;
      requested := requested + [url];
      clock := clock + r.took;
    }

    /** `time.sleep(seconds)`. */
    method Sleep(seconds: nat)
      modifies this
      ensures clock == old(clock) + seconds
      ensures issued == old(issued) && requested == old(requested)
    {
      clock := clock + seconds;
    }
  }
}
