// The commands a donation flow yields to its host and the payloads the host
// sends back. A flow is a generator: every yielded command is answered by one
// payload, and the flow cannot go on until that answer arrives.
module Commands {
  import opened Json
  import opened Tables

  /** The host's answer to a yielded command, by its __type__. */
  datatype Payload =
    | PayloadString(value: string)
    | PayloadTrue
    | PayloadFalse
    | PayloadJSON(value: string)
    | PayloadOther

  /** The body of a rendered page. */
  datatype Page =
    | FilePrompt
    | RetryPrompt
    | ReviewData(tables: seq<ConsentTable>)
    | RadioPrompt(items: seq<string>)
    | Questionnaire(question: string, answer: string)
    | EndPage

  /** What a donation carries: a string passed through as it is, or json.dumps
      of a value (the text serialisation itself is not part of this model). */
  datatype Donation = Raw(text: string) | Dumped(value: Json)

  datatype Command =
    | Render(page: Page)
    | Donate(key: string, donation: Donation)
    | Exit(code: int, info: string)

  /** The commands a flow yielded before it ended (finished), or before it
      stopped to wait for an answer the host has not sent or was ended by an
      exception (not finished). */
  datatype Run = Run(trace: seq<Command>, finished: bool)

  /** The answer to the command at trace position i is responses[i]: a flow
      that has yielded the commands t may read the answer to the last one
      exactly when this holds. */
  predicate Answered(t: seq<Command>, responses: seq<Payload>) {
    |t| <= |responses|
  }

  /** The donation both flows send when the participant declines: json.dumps
      applied to a string, so the donated value is a JSON string literal that
      happens to look like an object, not an object. */
  const DeclinedValue := Dumped(JStr("{\"status\" : \"data_submission declined\"}"))

  /** How many donations a trace holds. */
  function Donations(t: seq<Command>): (n: nat)
    ensures n <= |t|
    ensures n == 0 <==> forall i :: 0 <= i < |t| ==> !t[i].Donate?
  {
    if t == [] then 0
    else
      assert forall i :: 1 <= i < |t| ==> t[i] == t[1..][i - 1];
      (if t[0].Donate? then 1 else 0) + Donations(t[1..])
  }

  lemma {:induction false} DonationsAppend(a: seq<Command>, b: seq<Command>)
    ensures Donations(a + b) == Donations(a) + Donations(b)
  {
    if a == [] {
      assert a + b == b;
    } else {
      assert (a + b)[1..] == a[1..] + b;
      DonationsAppend(a[1..], b);
    }
  }

  /** Renders of the given pages, in order. */
  function Renders(ps: seq<Page>): (t: seq<Command>)
    ensures |t| == |ps|
    ensures forall i :: 0 <= i < |t| ==> t[i] == Render(ps[i])
  {
    seq(|ps|, i requires 0 <= i < |ps| => Render(ps[i]))
  }

  /** A flow that has yielded the answered commands t yields cs one by one:
      it goes on past a command only once that command is answered. The
      flag says whether all of cs were answered; if not, the trace ends with
      the first command still waiting for its answer. */
  function YieldAll(t: seq<Command>, cs: seq<Command>, R: seq<Payload>): (r: (seq<Command>, bool))
    requires Answered(t, R)
    ensures r.1 <==> Answered(t + cs, R)
    ensures r.1 ==> r.0 == t + cs
    ensures !r.1 ==> t < r.0 && r.0 <= t + cs && |r.0| == |R| + 1
  {
    if |t| + |cs| <= |R| then (t + cs, true)
    else
      var k := |R| - |t| + 1;
      assert (t + cs)[..|t| + k] == t + cs[..k];
      (t + cs[..k], false)
  }

  /** Yielding a + b is yielding a, then b if every command of a was answered. */
  lemma YieldAllAppend(t: seq<Command>, a: seq<Command>, b: seq<Command>, R: seq<Payload>)
    requires Answered(t, R)
    ensures YieldAll(t, a + b, R) == if YieldAll(t, a, R).1 then YieldAll(t + a, b, R) else YieldAll(t, a, R)
  {
    assert t + (a + b) == t + a + b;
    if |t| + |a| + |b| > |R| && |t| + |a| > |R| {
      var k := |R| - |t| + 1;
      assert (a + b)[..k] == a[..k];
    } else if |t| + |a| + |b| > |R| {
      var k := |R| - |t| + 1;
      assert t + (a + b)[..k] == (t + a) + b[..k - |a|];
    }
  }
}
