/**
 The conversation driver: one turn per chunk, the speaking assistant looked
 up by name, its reply logged, the slots rotated, and the loop stopped at
 the message limit. The remote work of a turn (posting the chunk, starting
 the run, waiting for it and listing the thread) is an opaque outcome
 supplied per turn.
 */
module Driver {
  import opened Wrappers
  import opened Rotation
  import opened Replies
  import opened Chunking

  datatype Assistant = Assistant(id: string)

  datatype Thread = Thread(id: string)

  /** An assistant's configuration; only its optional `name` entry is modelled. */
  datatype Params = Params(name: Option<string>)

  /** The three personas of the program, in creation order. */
  const KittyParams: Triple<Params> :=
    Triple(Params(Some("Reverse Engineer")), Params(Some("Script Developer")), Params(Some("Critic")))

  /** The message limit the program passes. */
  const KittyMessageLimit: int := 10

  /**
   What the remote service did in one turn: either the run completed and the
   thread was listed (`None` when the listing itself raised), or one of the
   calls raised before that.
   */
  datatype RemoteOutcome = Completed(listing: Option<seq<Message>>) | Raised

  datatype LogLine = Info(text: string) | Error

  /** One executed turn: its 1-based number, who was announced, where the chunk went, what was logged. */
  datatype TurnRecord = TurnRecord(number: nat, speaker: Option<string>, thread: Thread, sent: string, lines: seq<LogLine>)

  /**
   The name logged for the active assistant: compared with the first and the
   second assistant created, and the third name otherwise.
   */
  function DisplayName(active: Assistant, created: Triple<Assistant>, params: Triple<Params>): (r: Option<string>)
    ensures r in {params.a.name, params.b.name, params.c.name}
    ensures created.a != created.b && created.a != created.c && created.b != created.c ==>
              (active == created.a ==> r == params.a.name) &&
              (active == created.b ==> r == params.b.name) &&
              (active == created.c ==> r == params.c.name)
  {
    if active == created.a then params.a.name
    else if active == created.b then params.b.name
    else params.c.name
  }

  /**
   The lines a turn logs after announcing the speaker. A failed listing logs
   its own error and then an empty reply; any other failure logs one error.
   */
  function TurnLines(o: RemoteOutcome): (r: seq<LogLine>)
    ensures |r| > 0
    ensures r[|r| - 1] == Error <==> o.Raised?
    ensures o.Completed? ==> r[|r| - 1] == Info(LastAssistantReply(o.listing))
  {
    match o
    case Raised => [Error]
    case Completed(None) => [Error, Info("")]
    case Completed(Some(ms)) => [Info(LastAssistantReply(Some(ms)))]
  }

  /**
   The lines of a turn in full: an error is logged exactly when a call raised
   or the listing failed; a failed listing adds the empty reply after its
   error, and any other turn logs one line.
   */
  lemma TurnLinesErrors(o: RemoteOutcome)
    ensures Error in TurnLines(o) <==> o.Raised? || o == Completed(None)
    ensures o == Completed(None) ==> TurnLines(o) == [Error, Info("")]
    ensures o != Completed(None) ==> |TurnLines(o)| == 1
  {
  }

  /**
   The number of turns the loop runs over `n` chunks: none without chunks,
   at least one otherwise (the limit is checked only after a turn), and at
   most the limit.
   */
  function TurnCount(n: nat, msgLimit: int): nat
  {
    if n == 0 then 0
    else if msgLimit <= 1 then 1
    else Min(n, msgLimit)
  }

  /** Who speaks at turn `k`: the second persona on turns with `k % 3 == 1`, the first otherwise. */
  lemma SpeakerAt(created: Triple<Assistant>, params: Triple<Params>, k: nat)
    ensures DisplayName(After(created, k).a, created, params) ==
            if k % 3 == 1 && created.b != created.a then params.b.name else params.a.name
  {
    AfterClosedForm(created, k);
  }

  /** With the program's personas, the critic is never the one announced. */
  lemma CriticNeverSpeaks(created: Triple<Assistant>, k: nat)
    ensures DisplayName(After(created, k).a, created, KittyParams) != KittyParams.c.name
    ensures DisplayName(After(created, k).a, created, KittyParams) in
              {Some("Reverse Engineer"), Some("Script Developer")}
  {
    SpeakerAt(created, KittyParams, k);
  }

  /**
   The record of turn `k` in closed form: its 1-based number, the persona
   the rotation makes active, that persona's thread, chunk `k` and the lines
   the turn's remote outcome logs.
   */
  function ExpectedTurn(chunks: seq<string>, assistants: Triple<Assistant>, threads: Triple<Thread>,
                        params: Triple<Params>, remote: nat -> RemoteOutcome, k: nat): TurnRecord
    requires k < |chunks|
  {
    TurnRecord(k + 1,
               if k % 3 == 1 && assistants.b != assistants.a then params.b.name else params.a.name,
               if k % 3 == 1 then threads.b else threads.a,
               chunks[k], TurnLines(remote(k)))
  }

  /** What the loop logs at turn `k`, from the slots after `k` rotations, is the closed-form record. */
  lemma TurnIsExpected(chunks: seq<string>, assistants: Triple<Assistant>, threads: Triple<Thread>,
                       params: Triple<Params>, remote: nat -> RemoteOutcome, k: nat)
    requires k < |chunks|
    ensures TurnRecord(k + 1, DisplayName(After(assistants, k).a, assistants, params), After(threads, k).a,
                       chunks[k], TurnLines(remote(k)))
            == ExpectedTurn(chunks, assistants, threads, params, remote, k)
  {
    SpeakerAt(assistants, params, k);
    AfterClosedForm(threads, k);
  }

  /** A log of closed-form records states, field by field, who spoke where and what was sent and logged. */
  lemma ExpectedTurnFields(chunks: seq<string>, assistants: Triple<Assistant>, threads: Triple<Thread>,
                           params: Triple<Params>, remote: nat -> RemoteOutcome, turns: seq<TurnRecord>)
    requires |turns| <= |chunks|
    requires forall k :: 0 <= k < |turns| ==> turns[k] == ExpectedTurn(chunks, assistants, threads, params, remote, k)
    ensures forall k :: 0 <= k < |turns| ==>
              turns[k].number == k + 1 && turns[k].sent == chunks[k] && turns[k].lines == TurnLines(remote(k))
    ensures forall k :: 0 <= k < |turns| ==>
              turns[k].speaker == (if k % 3 == 1 && assistants.b != assistants.a then params.b.name else params.a.name)
    ensures forall k :: 0 <= k < |turns| ==>
              turns[k].thread == (if k % 3 == 1 then threads.b else threads.a)
  {
  }

  /**
   `assistant_conversation`: the turn loop over the chunks, starting from the
   created assistants and threads. The outcome of the remote work of turn
   `k` is `remote(k)`; whatever it is, the turn is logged, the slots rotate
   and the limit is checked, so the number of turns, the speakers and the
   threads do not depend on it.
   */
  method AssistantConversation(chunks: seq<string>, assistants: Triple<Assistant>, threads: Triple<Thread>,
                               params: Triple<Params>, msgLimit: int, remote: nat -> RemoteOutcome)
    returns (turns: seq<TurnRecord>, finalAssistants: Triple<Assistant>, finalThreads: Triple<Thread>)
    ensures |turns| == TurnCount(|chunks|, msgLimit)
    ensures forall k :: 0 <= k < |turns| ==>
              turns[k].number == k + 1 && turns[k].sent == chunks[k] && turns[k].lines == TurnLines(remote(k))
    ensures forall k :: 0 <= k < |turns| ==>
              turns[k].speaker == (if k % 3 == 1 && assistants.b != assistants.a then params.b.name else params.a.name)
    ensures forall k :: 0 <= k < |turns| ==>
              turns[k].thread == (if k % 3 == 1 then threads.b else threads.a)
    ensures finalAssistants == (if |turns| % 3 == 1 then Left(assistants) else assistants)
    ensures finalThreads == (if |turns| % 3 == 1 then Left(threads) else threads)
  {
    turns := [];
    var a, t := assistants, threads;
    var i := 0;
    while i < |chunks|
      invariant 0 <= i <= |chunks|
      invariant |turns| == i
      invariant 0 < i ==> i < msgLimit
      invariant a == After(assistants, i) && t == After(threads, i)
      invariant forall k :: 0 <= k < i ==> turns[k] == ExpectedTurn(chunks, assistants, threads, params, remote, k)
    {
      TurnIsExpected(chunks, assistants, threads, params, remote, i);
      var name := DisplayName(a.a, assistants, params);
      turns := turns + [TurnRecord(i + 1, name, t.a, chunks[i], TurnLines(remote(i)))];
      a, t := Rotate(a, i), Rotate(t, i);
      i := i + 1;
      if i - 1 >= msgLimit - 1 {
        break;
      }
    }
    ExpectedTurnFields(chunks, assistants, threads, params, remote, turns);
    AfterClosedForm(assistants, i);
    AfterClosedForm(threads, i);
    finalAssistants, finalThreads := a, t;
  }

  /**
   `converse` from the point where the file has been read: the text is cut
   into chunks of `maxChars` and the turn loop runs over them. A zero width
   raises before any turn.
   */
  method Converse(text: string, maxChars: int, assistants: Triple<Assistant>, threads: Triple<Thread>,
                  params: Triple<Params>, msgLimit: int, remote: nat -> RemoteOutcome)
    returns (r: Result<seq<TurnRecord>, ChunkError>)
    ensures r.Failure? <==> maxChars == 0
    ensures maxChars < 0 ==> r == Success([])
    ensures 0 < maxChars ==> r.Success? && |r.value| == TurnCount(CeilDiv(|text|, maxChars), msgLimit)
    ensures 0 < maxChars && r.Success? ==>
              |r.value| <= |ChunksFrom(text, 0, maxChars)| &&
              forall k :: 0 <= k < |r.value| ==> r.value[k].sent == ChunksFrom(text, 0, maxChars)[k]
    ensures r.Success? ==> forall k :: 0 <= k < |r.value| ==>
              r.value[k].number == k + 1 && r.value[k].lines == TurnLines(remote(k))
    ensures r.Success? ==> forall k :: 0 <= k < |r.value| ==>
              r.value[k].speaker == (if k % 3 == 1 && assistants.b != assistants.a then params.b.name else params.a.name)
    ensures r.Success? ==> forall k :: 0 <= k < |r.value| ==>
              r.value[k].thread == (if k % 3 == 1 then threads.b else threads.a)
  {
    var chunks := Chunk(text, maxChars);
    if chunks.Failure? {
      return Failure(chunks.error);
    }
    var turns, finalAssistants, finalThreads := AssistantConversation(chunks.value, assistants, threads, params, msgLimit, remote);
    if 0 < maxChars {
      ChunkCount(text, 0, maxChars);
    }
    r := Success(turns);
  }

  /**
   The program's run on a 70000-character file: three chunks, so three turns
   despite the limit of ten, announced as Reverse Engineer, Script Developer
   and Reverse Engineer.
   */
  method SeventyThousandCharacterRun(text: string, assistants: Triple<Assistant>, threads: Triple<Thread>,
                                     remote: nat -> RemoteOutcome)
    returns (turns: seq<TurnRecord>)
    requires |text| == 70000 && assistants.a != assistants.b
    ensures |turns| == 3
    ensures turns[0].speaker == Some("Reverse Engineer") && turns[1].speaker == Some("Script Developer")
            && turns[2].speaker == Some("Reverse Engineer")
    ensures |turns[0].sent| == 32768 && |turns[1].sent| == 32768 && |turns[2].sent| == 4464
  {
    SeventyThousandCharacters(text);
    var r := Converse(text, DefaultMaxChars, assistants, threads, KittyParams, KittyMessageLimit, remote);
    turns := r.value;
  }
}
