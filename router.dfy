/** The message router of main.py: a conversation memory bounded to the
    last 20 turns, an append-only task queue kept in queue.json, the prompt
    sent to the language model, the intent classifier built on it, and the
    endpoints that dispatch a message or queue a note, link or upload.

    The language model and the retrieval service are oracles: total
    functions from the request they are sent to the reply they give, where
    `None` stands for a call that raised (transport error, timeout, bad
    status or unreadable JSON). */
module Router {
  import opened Wrappers
  import opened Text
  import Auth

  /** `deque(maxlen=20)`. */
  const Capacity := 20

  const ErrorReply := "[Error querying LLM]"
  const EmptyReply := "[no response]"

  datatype Role = User | Assistant

  /** One entry of `conversation_memory`: `{"role": ..., "text": ...}`. */
  datatype Turn = Turn(role: Role, text: string)

  /** The Ollama call: the `"response"` field of the reply to a full prompt
      (the empty string when the field is missing), or `None` if the call raised. */
  type Llm = string -> Option<string>

  /** The RAG service call: the `"results"` field of its reply to a prompt
      (empty when the field is missing), or `None` if the call raised. */
  type RagService = string -> Option<seq<string>>

  /** One entry of queue.json. The timestamp is an opaque string. */
  datatype Task =
    | Note(text: string, owner: Option<string>, timestamp: string)
    | Link(url: string, owner: Option<string>, timestamp: string)
    | Upload(filename: string, path: string, owner: Option<string>, timestamp: string)

  /** What an endpoint answers. */
  datatype Response =
    | Rejected(error: string)          // the early return on blank input
    | Unauthorized(detail: string)     // `require_user` raised 401
    | Answer(response: string)         // `{"response": <LLM text>}`
    | Queued(id: nat)                  // `{"status": "queued", "id": ...}`
    | Retrieved(results: seq<string>)  // `{"response": <RAG results>}`
    | RagFailed                        // `{"error": "RAG lookup failed"}`, status 500

  // ---------------------------------------------------------------------
  // Conversation memory

  /** The last `n` elements of `s`, all of them when there are fewer. */
  function Latest<T>(s: seq<T>, n: nat): (r: seq<T>)
    ensures |r| == (if |s| <= n then |s| else n)
    ensures r == s[|s| - |r|..]
  {
    if |s| <= n then s else s[|s| - n..]
  }

  /** `conversation_memory.append(t)`: a full deque drops its oldest turn.
      The result is always the last 20 turns of the memory followed by `t`. */
  function Pushed(memory: seq<Turn>, t: Turn): (r: seq<Turn>)
    requires |memory| <= Capacity
    ensures r == Latest(memory + [t], Capacity)
    ensures |r| <= Capacity && r[|r| - 1] == t
  {
    if |memory| < Capacity then memory + [t] else memory[1..] + [t]
  }

  /** Appending the turns `ts` one after the other. */
  function PushedAll(memory: seq<Turn>, ts: seq<Turn>): seq<Turn>
    requires |memory| <= Capacity
    decreases |ts|
  {
    if ts == [] then memory else PushedAll(Pushed(memory, ts[0]), ts[1..])
  }

  /** Keeping the last `n` twice is keeping the last `n` once. */
  lemma LatestOfLatest<T>(s: seq<T>, t: seq<T>, n: nat)
    ensures Latest(Latest(s, n) + t, n) == Latest(s + t, n)
  {
    if |s| > n {
      var d := |s| - n;
      var x := s + t;
      assert Latest(s, n) + t == x[d..];
      var k := |Latest(x, n)|;
      assert k == n;
      assert x[d..][|x[d..]| - k..] == x[|x| - k..];
    }
  }

  /** One push followed by more turns keeps the same last 20 as appending
      everything at once. */
  lemma PushedThenLatest(memory: seq<Turn>, t: Turn, rest: seq<Turn>)
    requires |memory| <= Capacity
    ensures Latest(Pushed(memory, t) + rest, Capacity) == Latest(memory + ([t] + rest), Capacity)
  {
    LatestOfLatest(memory + [t], rest, Capacity);
    assert memory + [t] + rest == memory + ([t] + rest);
  }

  /** However many turns are appended, the memory holds exactly the last
      20 of all the turns so far, oldest first. */
  lemma {:induction false} PushedAllIsLatest(memory: seq<Turn>, ts: seq<Turn>)
    requires |memory| <= Capacity
    ensures PushedAll(memory, ts) == Latest(memory + ts, Capacity)
    decreases |ts|
  {
    if ts == [] {
      assert memory + ts == memory;
    } else {
      PushedAllIsLatest(Pushed(memory, ts[0]), ts[1..]);
      PushedThenLatest(memory, ts[0], ts[1..]);
      assert [ts[0]] + ts[1..] == ts;
    }
  }

  // ---------------------------------------------------------------------
  // Prompts

  /** `"User"` for a user turn, `"Assistant"` for every other role. */
  function RoleName(role: Role): string {
    if role == User then "User" else "Assistant"
  }

  /** One history line: `f"{role}: {text}\n"`. */
  function RenderTurn(t: Turn): string {
    RoleName(t.role) + ": " + t.text + "\n"
  }

  /** The history lines, one per turn. */
  function Lines(history: seq<Turn>): (r: seq<string>)
    ensures |r| == |history|
    ensures forall i :: 0 <= i < |r| ==> r[i] == RenderTurn(history[i])
  {
    seq(|history|, i requires 0 <= i < |history| => RenderTurn(history[i]))
  }

  /** The strings joined left to right, as a `+=` loop joins them. */
  function Concat(parts: seq<string>): string {
    if parts == [] then ""
    else Concat(parts[..|parts| - 1]) + parts[|parts| - 1]
  }

  /** `history_str`: the history lines in order. */
  function RenderHistory(history: seq<Turn>): string {
    Concat(Lines(history))
  }

  /** `full_prompt`: the history, then the new user line and the cue for the reply. */
  function FullPrompt(prompt: string, history: seq<Turn>): string {
    RenderHistory(history) + "User: " + prompt + "\nAssistant:"
  }

  /** The fixed opening of the classifier instruction. */
  const ClassifierHead: string :=
    "You are an intent classifier. Given a user message, reply with exactly one of: "
    + "[query, save_note, save_link, upload_file, retrieve].\n\nMessage: "

  /** The instruction `classify_intent` sends as its prompt. */
  function ClassifierPrompt(text: string): string {
    ClassifierHead + text + "\nIntent:"
  }

  /** Joining distributes over concatenation. */
  lemma {:induction false} ConcatAppend(a: seq<string>, b: seq<string>)
    ensures Concat(a + b) == Concat(a) + Concat(b)
    decreases |b|
  {
    if b == [] {
      assert a + b == a;
    } else {
      var front, x := b[..|b| - 1], b[|b| - 1];
      assert (a + b)[..|a + b| - 1] == a + front;
      ConcatAppend(a, front);
      assert Concat(a + b) == (Concat(a) + Concat(front)) + x;
      assert (Concat(a) + Concat(front)) + x == Concat(a) + (Concat(front) + x);
    }
  }

  /** Every turn of the history is rendered in place, in order: the
      rendering is that of the turns before turn `i`, then turn `i` as a
      `"User: "` or `"Assistant: "` line, then the turns after it. */
  lemma RenderedInOrder(history: seq<Turn>, i: nat)
    requires i < |history|
    ensures RenderHistory(history) ==
      RenderHistory(history[..i]) + RenderTurn(history[i]) + RenderHistory(history[i + 1..])
  {
    var before, line, after := Lines(history[..i]), RenderTurn(history[i]), Lines(history[i + 1..]);
    assert Lines(history) == before + [line] + after;
    ConcatAppend(before + [line], after);
    ConcatAppend(before, [line]);
    assert [line][..0] == [];
  }

  // ---------------------------------------------------------------------
  // Replies of the language model

  /** What `query_ollama` returns for a reply: the stripped text, the
      placeholder `"[no response]"` for a blank one, and `"[Error querying
      LLM]"` when the call raised. It is never empty and never starts or
      ends with whitespace. */
  function Normalized(raw: Option<string>): (r: string)
    ensures r != [] && !IsSpace(r[0]) && !IsSpace(r[|r| - 1])
    ensures raw.None? ==> r == ErrorReply
    ensures raw.Some? && IsBlank(raw.value) ==> r == EmptyReply
    ensures raw.Some? && !IsBlank(raw.value) ==> r == Strip(raw.value)
  {
    match raw
    case None => ErrorReply
    case Some(text) => if Strip(text) == "" then EmptyReply else Strip(text)
  }

  /** The turns a call adds to the memory: its normalised reply as an
      assistant turn when the call succeeded, nothing when it raised. */
  function ReplyTurns(raw: Option<string>): (r: seq<Turn>)
    ensures |r| <= 1
  {
    if raw.Some? then [Turn(Assistant, Normalized(raw))] else []
  }

  /** The memory after a call, as `query_ollama` leaves it: it keeps the
      last 20 of the earlier turns followed by the call's `ReplyTurns`. */
  function AfterCall(memory: seq<Turn>, raw: Option<string>): (r: seq<Turn>)
    requires |memory| <= Capacity
    ensures |r| <= Capacity
    ensures r == Latest(memory + ReplyTurns(raw), Capacity)
  {
    if raw.Some? then Pushed(memory, Turn(Assistant, Normalized(raw)))
    else assert memory + [] == memory; memory
  }

  // ---------------------------------------------------------------------
  // Dispatch

  /** Where `handle_message` sends a message, given the lower-cased label. */
  datatype Route = ToLlm | SaveNote | SaveLink | ToRag

  /** The `if`/`elif` chain on the label: `"query"` and every label it does
      not name (`"upload_file"` included) go to the language model. */
  function RouteOf(intent: string): Route {
    if intent == "query" then ToLlm
    else if intent == "save_note" then SaveNote
    else if intent == "save_link" then SaveLink
    else if intent == "retrieve" then ToRag
    else ToLlm
  }

  /** Only the exact labels `"save_note"` and `"save_link"` reach the queue;
      `"retrieve"` alone reaches the RAG service. */
  lemma OnlySaveLabelsReachQueue(intent: string)
    ensures RouteOf(intent) == SaveNote <==> intent == "save_note"
    ensures RouteOf(intent) == SaveLink <==> intent == "save_link"
    ensures RouteOf(intent) == ToRag <==> intent == "retrieve"
    ensures RouteOf(intent) == ToLlm <==> intent !in {"save_note", "save_link", "retrieve"}
  {
  }

  /** A classifier reply that is a lower-case label, whatever whitespace
      surrounds it, is routed by that label. */
  lemma LabelReplyRoutes(raw: string, word: string)
    requires IsLowerLabel(word) && word != "" && Strip(raw) == word
    ensures Lower(Normalized(Some(raw))) == word
    ensures RouteOf(Lower(Normalized(Some(raw)))) == RouteOf(word)
  {
    LowerFixesLabels(word);
  }

  /** The label is lower-cased before routing, so upper- and mixed-case
      spellings of a label route as the label does. */
  lemma LabelsIgnoreCase()
    ensures RouteOf(Lower("SAVE_NOTE")) == SaveNote
    ensures RouteOf(Lower("Save_Link")) == SaveLink
    ensures RouteOf(Lower("RETRIEVE")) == ToRag
  {
    assert Lower("SAVE_NOTE") == "save_note";
    assert Lower("Save_Link") == "save_link";
    assert Lower("RETRIEVE") == "retrieve";
  }

  // ---------------------------------------------------------------------
  // Queued tasks

  /** `load_queue()`: the stored list, or `[]` when queue.json does not exist. */
  function LoadQueue(file: Option<seq<Task>>): seq<Task> {
    if file.Some? then file.value else []
  }

  /** `user.get("user")` on the record `require_user` returned. */
  function Owner(user: Auth.UserRecord): Option<string> {
    if "user" in user then Some(user["user"]) else None
  }

  /** `str(DATA_FOLDER / filename)` for a plain relative file name. */
  function UploadPath(filename: string): string {
    "data/" + filename
  }

  /** The state main.py changes: the conversation memory and queue.json. */
  datatype Session = Session(memory: seq<Turn>, queueFile: Option<seq<Task>>)

  /** Load the queue, append one task, save it, answer with its index. */
  function Enqueued(s: Session, task: Task): (Session, Response) {
    var queue := LoadQueue(s.queueFile) + [task];
    (Session(s.memory, Some(queue)), Queued(|queue| - 1))
  }

  /** The first half of `POST /message` for a non-blank stripped text `t`:
      append the user turn, ask the classifier (whose reply is recorded
      too), and lower-case its answer. Gives the memory and the label. */
  function Classified(memory: seq<Turn>, t: string, llm: Llm): (r: (seq<Turn>, string))
    requires |memory| <= Capacity
    ensures |r.0| <= Capacity
  {
    var c := llm(FullPrompt(ClassifierPrompt(t), []));
    (AfterCall(Pushed(memory, Turn(User, t)), c), Lower(Normalized(c)))
  }

  /** The second half of `POST /message`: route the label. */
  function Dispatched(s: Session, t: string, intent: string, llm: Llm, rag: RagService, now: string): (Session, Response)
    requires |s.memory| <= Capacity
  {
    match RouteOf(intent)
    case ToLlm =>
      var a := llm(FullPrompt(t, s.memory));
      (Session(AfterCall(s.memory, a), s.queueFile), Answer(Normalized(a)))
    case SaveNote => Enqueued(s, Note(t, None, now))
    case SaveLink => Enqueued(s, Link(t, None, now))
    case ToRag =>
      (s, match rag(t) case Some(res) => Retrieved(res) case None => RagFailed)
  }

  /** `POST /message`, as a function of the session before it. */
  function MessageStep(s: Session, text: string, llm: Llm, rag: RagService, now: string): (Session, Response)
    requires |s.memory| <= Capacity
  {
    var t := Strip(text);
    if t == "" then (s, Rejected("Empty message"))
    else
      var (m2, intent) := Classified(s.memory, t, llm);
      Dispatched(Session(m2, s.queueFile), t, intent, llm, rag, now)
  }

  /** `POST /note`: authenticate, refuse a blank note, queue it unstripped. */
  function NoteStep(s: Session, cookies: Auth.Cookies, users: Auth.Users, text: string, now: string): (Session, Response) {
    var user := Auth.RequireUser(cookies, users);
    if user.Raised? then (s, Unauthorized(user.detail))
    else if IsBlank(text) then (s, Rejected("Empty note"))
    else Enqueued(s, Note(text, Owner(user.value), now))
  }

  /** `POST /link`: authenticate, refuse a blank URL, queue it unstripped. */
  function LinkStep(s: Session, cookies: Auth.Cookies, users: Auth.Users, url: string, now: string): (Session, Response) {
    var user := Auth.RequireUser(cookies, users);
    if user.Raised? then (s, Unauthorized(user.detail))
    else if IsBlank(url) then (s, Rejected("Empty URL"))
    else Enqueued(s, Link(url, Owner(user.value), now))
  }

  /** `POST /upload`: authenticate, then queue the stored file. */
  function UploadStep(s: Session, cookies: Auth.Cookies, users: Auth.Users, filename: string, now: string): (Session, Response) {
    var user := Auth.RequireUser(cookies, users);
    if user.Raised? then (s, Unauthorized(user.detail))
    else Enqueued(s, Upload(filename, UploadPath(filename), Owner(user.value), now))
  }

  // ---------------------------------------------------------------------
  // Properties of the endpoints

  /** A blank message, note or URL is turned away and changes neither the
      memory nor the queue. */
  lemma BlankInputChangesNothing(s: Session, cookies: Auth.Cookies, users: Auth.Users,
                                 text: string, llm: Llm, rag: RagService, now: string)
    requires |s.memory| <= Capacity
    requires IsBlank(text)
    ensures MessageStep(s, text, llm, rag, now) == (s, Rejected("Empty message"))
    ensures NoteStep(s, cookies, users, text, now).0 == s
    ensures LinkStep(s, cookies, users, text, now).0 == s
    ensures Auth.RequireUser(cookies, users).Ok? ==>
      NoteStep(s, cookies, users, text, now).1 == Rejected("Empty note") &&
      LinkStep(s, cookies, users, text, now).1 == Rejected("Empty URL")
  {
  }

  /** A message that is not blank is classified, then dispatched. */
  lemma MessageSplits(s: Session, text: string, llm: Llm, rag: RagService, now: string)
    requires |s.memory| <= Capacity
    requires !IsBlank(text)
    ensures
      var c := Classified(s.memory, Strip(text), llm);
      MessageStep(s, text, llm, rag, now) == Dispatched(Session(c.0, s.queueFile), Strip(text), c.1, llm, rag, now)
  {
  }

  /** After the classifier call the memory holds the last 20 of the
      earlier turns, the user turn and, if the call succeeded, its reply. */
  lemma ClassifiedMemory(memory: seq<Turn>, t: string, llm: Llm)
    requires |memory| <= Capacity
    ensures Classified(memory, t, llm).0 ==
      Latest(memory + [Turn(User, t)] + ReplyTurns(llm(FullPrompt(ClassifierPrompt(t), []))), Capacity)
  {
    var c := llm(FullPrompt(ClassifierPrompt(t), []));
    LatestOfLatest(memory + [Turn(User, t)], ReplyTurns(c), Capacity);
  }

  /** Dispatch adds a turn only on the language-model route: the answer,
      if that call succeeded, asked with the memory as the history. */
  lemma DispatchedMemory(s: Session, t: string, intent: string, llm: Llm, rag: RagService, now: string)
    requires |s.memory| <= Capacity
    ensures var (s', resp) := Dispatched(s, t, intent, llm, rag, now);
      var a := llm(FullPrompt(t, s.memory));
      && (RouteOf(intent) == ToLlm ==>
            s'.memory == Latest(s.memory + ReplyTurns(a), Capacity) && resp == Answer(Normalized(a)))
      && (RouteOf(intent) != ToLlm ==> s'.memory == s.memory)
  {
  }

  /** A message that is not blank first appends the stripped text as a user
      turn, then the classifier's reply as an assistant turn if that call
      succeeded, then, on the language-model route, the answer if that call
      succeeded; the answer's prompt carries the memory as it stood after
      the classifier. The memory is always the last 20 of all these turns. */
  lemma MessageMemory(s: Session, text: string, llm: Llm, rag: RagService, now: string)
    requires |s.memory| <= Capacity
    requires !IsBlank(text)
    ensures
      var t := Strip(text);
      var c := llm(FullPrompt(ClassifierPrompt(t), []));
      var asked := s.memory + [Turn(User, t)] + ReplyTurns(c);
      var a := llm(FullPrompt(t, Latest(asked, Capacity)));
      var after := MessageStep(s, text, llm, rag, now);
      && |after.0.memory| <= Capacity
      && (RouteOf(Lower(Normalized(c))) == ToLlm ==>
            after.0.memory == Latest(asked + ReplyTurns(a), Capacity) && after.1 == Answer(Normalized(a)))
      && (RouteOf(Lower(Normalized(c))) != ToLlm ==> after.0.memory == Latest(asked, Capacity))
  {
    var t := Strip(text);
    var c := llm(FullPrompt(ClassifierPrompt(t), []));
    var asked := s.memory + [Turn(User, t)] + ReplyTurns(c);
    var cl := Classified(s.memory, t, llm);
    MessageSplits(s, text, llm, rag, now);
    ClassifiedMemory(s.memory, t, llm);
    assert cl.0 == Latest(asked, Capacity);
    assert cl.1 == Lower(Normalized(c));
    DispatchedMemory(Session(cl.0, s.queueFile), t, cl.1, llm, rag, now);
    LatestOfLatest(asked, ReplyTurns(llm(FullPrompt(t, cl.0))), Capacity);
  }

  /** The queue is append-only: every request either leaves queue.json as it
      was, or appends exactly one task at the end, keeps every earlier entry
      and answers with the new task's index, the new length minus one. */
  predicate AppendsOne(before: Session, after: Session, resp: Response, task: Task) {
    && after.memory == before.memory
    && LoadQueue(after.queueFile) == LoadQueue(before.queueFile) + [task]
    && resp == Queued(|LoadQueue(after.queueFile)| - 1)
  }

  /** Dispatch changes the queue only for `"save_note"` and `"save_link"`,
      appending a note or a link with the text and no owner. */
  lemma DispatchedQueue(s: Session, t: string, intent: string, llm: Llm, rag: RagService, now: string)
    requires |s.memory| <= Capacity
    ensures var (s', resp) := Dispatched(s, t, intent, llm, rag, now);
      && (intent == "save_note" ==> AppendsOne(s, s', resp, Note(t, None, now)))
      && (intent == "save_link" ==> AppendsOne(s, s', resp, Link(t, None, now)))
      && (intent != "save_note" && intent != "save_link" ==> s'.queueFile == s.queueFile)
  {
    OnlySaveLabelsReachQueue(intent);
  }

  /** `/message` changes the queue only for the labels `"save_note"` and
      `"save_link"`, appending a note or a link with the stripped text and
      no owner; every other label leaves the queue file untouched. */
  lemma MessageQueue(s: Session, text: string, llm: Llm, rag: RagService, now: string)
    requires |s.memory| <= Capacity
    requires !IsBlank(text)
    ensures
      var t := Strip(text);
      var intent := Lower(Normalized(llm(FullPrompt(ClassifierPrompt(t), []))));
      var after := MessageStep(s, text, llm, rag, now);
      && (intent == "save_note" ==>
            LoadQueue(after.0.queueFile) == LoadQueue(s.queueFile) + [Note(t, None, now)] &&
            after.1 == Queued(|LoadQueue(s.queueFile)|))
      && (intent == "save_link" ==>
            LoadQueue(after.0.queueFile) == LoadQueue(s.queueFile) + [Link(t, None, now)] &&
            after.1 == Queued(|LoadQueue(s.queueFile)|))
      && (intent != "save_note" && intent != "save_link" ==> after.0.queueFile == s.queueFile)
  {
    var t := Strip(text);
    var cl := Classified(s.memory, t, llm);
    MessageSplits(s, text, llm, rag, now);
    assert cl.1 == Lower(Normalized(llm(FullPrompt(ClassifierPrompt(t), []))));
    DispatchedQueue(Session(cl.0, s.queueFile), t, cl.1, llm, rag, now);
  }

  /** The authenticated endpoints, for any user table. A caller whose
      cookie `require_user` rejects gets its 401 detail and changes nothing.
      An accepted caller appends exactly one task of the endpoint's kind,
      owned by the `"user"` field of the caller's record, and gets its
      index; for a note or a link this needs a non-blank text. */
  lemma AuthenticatedEndpoints(s: Session, cookies: Auth.Cookies, users: Auth.Users,
                               text: string, filename: string, now: string)
    ensures var user := Auth.RequireUser(cookies, users);
      && (user.Raised? ==>
            && NoteStep(s, cookies, users, text, now) == (s, Unauthorized(user.detail))
            && LinkStep(s, cookies, users, text, now) == (s, Unauthorized(user.detail))
            && UploadStep(s, cookies, users, filename, now) == (s, Unauthorized(user.detail)))
      && (user.Ok? && !IsBlank(text) ==>
            && AppendsOne(s, NoteStep(s, cookies, users, text, now).0, NoteStep(s, cookies, users, text, now).1,
                          Note(text, Owner(user.value), now))
            && AppendsOne(s, LinkStep(s, cookies, users, text, now).0, LinkStep(s, cookies, users, text, now).1,
                          Link(text, Owner(user.value), now)))
      && (user.Ok? ==>
            AppendsOne(s, UploadStep(s, cookies, users, filename, now).0, UploadStep(s, cookies, users, filename, now).1,
                       Upload(filename, UploadPath(filename), Owner(user.value), now)))
  {
  }

  /** With the seeded user table the `"user"` field is absent, so every task
      the authenticated endpoints queue has the owner `None`. */
  lemma SeededOwnerIsNone(s: Session, cookies: Auth.Cookies, text: string, filename: string, now: string)
    requires Auth.CookieCodeword(cookies) == Some("open-sesame")
    requires !IsBlank(text)
    ensures
      var users := Auth.LoadUsers(None);
      && AppendsOne(s, NoteStep(s, cookies, users, text, now).0, NoteStep(s, cookies, users, text, now).1,
                    Note(text, None, now))
      && AppendsOne(s, LinkStep(s, cookies, users, text, now).0, LinkStep(s, cookies, users, text, now).1,
                    Link(text, None, now))
      && AppendsOne(s, UploadStep(s, cookies, users, filename, now).0, UploadStep(s, cookies, users, filename, now).1,
                    Upload(filename, UploadPath(filename), None, now))
  {
    var users := Auth.LoadUsers(None);
    Auth.SeededUserHasNoUserField(cookies);
    AuthenticatedEndpoints(s, cookies, users, text, filename, now);
    assert Owner(Auth.RequireUser(cookies, users).value) == None;
  }

  // ---------------------------------------------------------------------
  // The process state of main.py

  /** The module-level state of main.py: `conversation_memory` and the
      queue file. */
  class Assistant {
    var memory: seq<Turn>
    var queueFile: Option<seq<Task>>

    ghost predicate Valid()
      reads this
    {
      |memory| <= Capacity
    }

    function State(): Session
      reads this
    {
      Session(memory, queueFile)
    }

    /** At import the deque is empty; queue.json is whatever is on disk. */
    constructor (queueFile: Option<seq<Task>>)
      ensures Valid() && memory == [] && this.queueFile == queueFile
    {
      memory := [];
      this.queueFile := queueFile;
    }

    /** `conversation_memory.append(t)`. */
    method Remember(t: Turn)
      requires Valid()
      modifies this
      ensures Valid()
      ensures memory == Pushed(old(memory), t) && queueFile == old(queueFile)
    {
      if |memory| < Capacity {
        memory := memory + [t];
      } else {
        memory := memory[1..] + [t];
      }
    }

    /** `save_queue(queue)`: queue.json now holds `queue`. */
    method SaveQueue(queue: seq<Task>)
      modifies this
      ensures queueFile == Some(queue) && memory == old(memory)
    {
      queueFile := Some(queue);
    }

    /** The prompt-building part of `query_ollama`: the `+=` loop over the
      history, then the new user line. */
    static method BuildPrompt(prompt: string, history: seq<Turn>) returns (full: string)
      ensures full == FullPrompt(prompt, history)
    {
      var historyStr := "";
      var i := 0;
      while i < |history|
        invariant 0 <= i <= |history|
        invariant historyStr == RenderHistory(history[..i])
      {
        assert Lines(history[..i + 1])[..i] == Lines(history[..i]);
        historyStr := historyStr + RenderTurn(history[i]);
        i := i + 1;
      }
      assert history[..i] == history;
      full := historyStr + "User: " + prompt + "\nAssistant:";
    }

    /** `query_ollama(prompt, history)`: send the full prompt; on success
      append the normalised reply to the memory and return it; on failure
      return the error placeholder and append nothing. */
    method QueryOllama(prompt: string, history: seq<Turn>, llm: Llm) returns (reply: string)
      requires Valid()
      modifies this
      ensures Valid()
      ensures reply == Normalized(llm(FullPrompt(prompt, history)))
      ensures memory == AfterCall(old(memory), llm(FullPrompt(prompt, history)))
      ensures queueFile == old(queueFile)
    {
      var full := BuildPrompt(prompt, history);
      var raw := llm(full);
      if raw.None? {
        return ErrorReply;
      }
      var stripped := Strip(raw.value);
      reply := if stripped == "" then EmptyReply else stripped;
      Remember(Turn(Assistant, reply));
    }

    /** `classify_intent(text)`: the classifier instruction sent with no
      history. Like every `query_ollama` call, it records its reply. */
    method ClassifyIntent(text: string, llm: Llm) returns (reply: string)
      requires Valid()
      modifies this
      ensures Valid()
      ensures reply == Normalized(llm(FullPrompt(ClassifierPrompt(text), [])))
      ensures memory == AfterCall(old(memory), llm(FullPrompt(ClassifierPrompt(text), [])))
      ensures queueFile == old(queueFile)
    {
      reply := QueryOllama(ClassifierPrompt(text), [], llm);
    }

    /** Load queue.json, append one task, save it, answer with its index. */
    method Enqueue(task: Task) returns (resp: Response)
      modifies this
      ensures (State(), resp) == Enqueued(old(State()), task)
    {
      var queue := LoadQueue(queueFile);
      queue := queue + [task];
      SaveQueue(queue);
      resp := Queued(|queue| - 1);
    }

    /** `POST /message`. */
    method HandleMessage(text: string, llm: Llm, rag: RagService, now: string) returns (resp: Response)
      requires Valid()
      modifies this
      ensures Valid()
      ensures (State(), resp) == MessageStep(old(State()), text, llm, rag, now)
    {
      var t := Strip(text);
      if t == "" {
        return Rejected("Empty message");
      }
      Remember(Turn(User, t));
      var classified := ClassifyIntent(t, llm);
      var intent := Lower(classified);
      resp := Dispatch(t, intent, llm, rag, now);
    }

    /** The routing part of `POST /message`, on the lower-cased label. */
    method Dispatch(t: string, intent: string, llm: Llm, rag: RagService, now: string) returns (resp: Response)
      requires Valid()
      modifies this
      ensures Valid()
      ensures (State(), resp) == Dispatched(old(State()), t, intent, llm, rag, now)
    {
      if intent == "query" {
        var answer := QueryOllama(t, memory, llm);
        resp := Answer(answer);
      } else if intent == "save_note" {
        resp := Enqueue(Note(t, None, now));
      } else if intent == "save_link" {
        resp := Enqueue(Link(t, None, now));
      } else if intent == "retrieve" {
        var results := rag(t);
        resp := if results.Some? then Retrieved(results.value) else RagFailed;
      } else {
        var answer := QueryOllama(t, memory, llm);
        resp := Answer(answer);
      }
    }

    /** `POST /note`. */
    method AddNote(cookies: Auth.Cookies, users: Auth.Users, text: string, now: string) returns (resp: Response)
      requires Valid()
      modifies this
      ensures Valid()
      ensures (State(), resp) == NoteStep(old(State()), cookies, users, text, now)
    {
      var user := Auth.RequireUser(cookies, users);
      if user.Raised? {
        return Unauthorized(user.detail);
      }
      if Strip(text) == "" {
        return Rejected("Empty note");
      }
      resp := Enqueue(Note(text, Owner(user.value), now));
    }

    /** `POST /link`. */
    method AddLink(cookies: Auth.Cookies, users: Auth.Users, url: string, now: string) returns (resp: Response)
      requires Valid()
      modifies this
      ensures Valid()
      ensures (State(), resp) == LinkStep(old(State()), cookies, users, url, now)
    {
      var user := Auth.RequireUser(cookies, users);
      if user.Raised? {
        return Unauthorized(user.detail);
      }
      if Strip(url) == "" {
        return Rejected("Empty URL");
      }
      resp := Enqueue(Link(url, Owner(user.value), now));
    }

    /** `POST /upload` (the write of the uploaded bytes is not modelled). */
    method UploadFile(cookies: Auth.Cookies, users: Auth.Users, filename: string, now: string) returns (resp: Response)
      requires Valid()
      modifies this
      ensures Valid()
      ensures (State(), resp) == UploadStep(old(State()), cookies, users, filename, now)
    {
      var user := Auth.RequireUser(cookies, users);
      if user.Raised? {
        return Unauthorized(user.detail);
      }
      resp := Enqueue(Upload(filename, UploadPath(filename), Owner(user.value), now));
    }
  }
}
