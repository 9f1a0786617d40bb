/** api/conversation.py: a chat transcript that every message extends with a user turn and, when
    the completion call returns, the assistant's reply. The completion call is an oracle. */
module Chat {
  import opened PyModel

  datatype Role = System | User | Assistant

  /** One element of a multi-part user content. */
  datatype Part = TextPart(text: string) | ImageUrlPart(url: string)

  /** A message content: a plain string, or a list of parts. */
  datatype Content = Plain(text: string) | Parts(parts: seq<Part>)

  datatype Entry = Entry(role: Role, content: Content)

  /** What `client.chat.completions.create` did with a transcript: the content of the first
      choice, or an exception. */
  datatype Completion = Replied(content: string) | Failed

  /** Roles alternate user, assistant, user, ... and end on an assistant turn. */
  ghost predicate TurnPairs(t: seq<Entry>)
  {
    |t| % 2 == 0 && forall i :: 0 <= i < |t| ==> t[i].role == (if i % 2 == 0 then User else Assistant)
  }

  /** An optional leading system entry followed by user/assistant pairs. */
  ghost predicate WellFormed(t: seq<Entry>)
  {
    if |t| > 0 && t[0].role == System then TurnPairs(t[1..]) else TurnPairs(t)
  }

  /** What every transcript satisfies, failed calls included: a system entry only at the front,
      and every assistant turn right after a user turn. */
  ghost predicate Consistent(t: seq<Entry>)
  {
    && (forall i :: 0 < i < |t| ==> t[i].role != System)
    && (forall i :: 0 <= i < |t| && t[i].role == Assistant ==> 0 < i && t[i - 1].role == User)
  }

  /** The transcript the constructor seeds. */
  function InitialTranscript(instruction: Option<string>): (t: seq<Entry>)
    ensures instruction.Some? && instruction.value != "" ==> t == [Entry(System, Plain(instruction.value))]
    ensures instruction.None? || instruction.value == "" ==> t == []
  {
    if instruction.Some? && instruction.value != "" then [Entry(System, Plain(instruction.value))] else []
  }

  /** A seeded transcript is well formed. */
  lemma InitialWellFormed(instruction: Option<string>)
    ensures WellFormed(InitialTranscript(instruction)) && Consistent(InitialTranscript(instruction))
  {
    var t := InitialTranscript(instruction);
    if t != [] {
      assert t[1..] == [];
    }
  }

  /** The user turn of `message`: plain text without images, else a text part followed by one
      image part per URL, in order. */
  function UserTurn(message: string, imagesUrls: Option<seq<string>>): (e: Entry)
    ensures e.role == User
    ensures e.content.Plain? <==> imagesUrls.None? || imagesUrls.value == []
    ensures e.content.Plain? ==> e.content.text == message
    ensures e.content.Parts? ==>
              && |e.content.parts| == |imagesUrls.value| + 1
              && e.content.parts[0] == TextPart(message)
              && forall i :: 0 <= i < |imagesUrls.value| ==> e.content.parts[i + 1] == ImageUrlPart(imagesUrls.value[i])
  {
    if imagesUrls.Some? && imagesUrls.value != [] then
      var urls := imagesUrls.value;
      Entry(User, Parts([TextPart(message)] + seq(|urls|, i requires 0 <= i < |urls| => ImageUrlPart(urls[i]))))
    else
      Entry(User, Plain(message))
  }

  /** The image URLs a content carries, in order. */
  function ImageUrls(c: Content): seq<string>
  {
    if c.Plain? then [] else PartUrls(c.parts)
  }

  function PartUrls(parts: seq<Part>): seq<string>
  {
    if parts == [] then []
    else (if parts[0].ImageUrlPart? then [parts[0].url] else []) + PartUrls(parts[1..])
  }

  /** The user turn carries exactly the given image URLs: none of them is lost, reordered or
      duplicated. */
  lemma UserTurnUrls(message: string, imagesUrls: Option<seq<string>>)
    ensures ImageUrls(UserTurn(message, imagesUrls).content) == (if imagesUrls.None? then [] else imagesUrls.value)
  {
    var e := UserTurn(message, imagesUrls);
    if e.content.Parts? {
      var urls := imagesUrls.value;
      assert e.content.parts[1..] == seq(|urls|, i requires 0 <= i < |urls| => ImageUrlPart(urls[i]));
      ImageUrlsOfImageParts(urls);
    }
  }

  lemma {:induction false} ImageUrlsOfImageParts(urls: seq<string>)
    ensures PartUrls(seq(|urls|, i requires 0 <= i < |urls| => ImageUrlPart(urls[i]))) == urls
  {
    if urls != [] {
      var parts := seq(|urls|, i requires 0 <= i < |urls| => ImageUrlPart(urls[i]));
      assert parts[1..] == seq(|urls[1..]|, i requires 0 <= i < |urls[1..]| => ImageUrlPart(urls[1..][i]));
      ImageUrlsOfImageParts(urls[1..]);
    }
  }

  /** A successful `message` keeps the transcript well formed. */
  lemma WellFormedExtend(t: seq<Entry>, user: Entry, assistant: Entry)
    requires WellFormed(t) && user.role == User && assistant.role == Assistant
    ensures WellFormed(t + [user, assistant])
  {
    var t' := t + [user, assistant];
    if |t| > 0 && t[0].role == System {
      assert t'[1..] == t[1..] + [user, assistant];
    }
  }

  /** A failed `message` leaves a dangling user turn, so the transcript is no longer well formed
      (the turn is not removed). */
  lemma FailureBreaksShape(t: seq<Entry>, user: Entry)
    requires WellFormed(t) && user.role == User
    ensures !WellFormed(t + [user])
  {
    var t' := t + [user];
    if |t| > 0 && t[0].role == System {
      assert t'[1..] == t[1..] + [user];
    }
  }

  /** The consistency of a transcript survives both outcomes of `message`. */
  lemma ConsistentExtend(t: seq<Entry>, user: Entry, assistant: Entry)
    requires Consistent(t) && user.role == User && assistant.role == Assistant
    ensures Consistent(t + [user])
    ensures Consistent(t + [user, assistant])
  {
    var t' := t + [user, assistant];
    assert t'[|t|] == user && t'[|t| + 1] == assistant;
  }

  /** Well-formed transcripts are consistent. */
  lemma WellFormedConsistent(t: seq<Entry>)
    requires WellFormed(t)
    ensures Consistent(t)
  {
    if |t| > 0 && t[0].role == System {
      assert forall i :: 0 < i < |t| ==> t[i] == t[1..][i - 1];
    }
  }

  class Conversation {
    var model: string
    var transcript: seq<Entry>

    ghost predicate Valid()
      reads this
    {
      Consistent(transcript)
    }

    /** `Conversation(model, instruction)`. */
    constructor (model: string := "gpt-4o", instruction: Option<string> := None)
      ensures this.model == model
      ensures transcript == InitialTranscript(instruction)
      ensures WellFormed(transcript) && Valid()
    {
      this.model := model;
      transcript := InitialTranscript(instruction);
      InitialWellFormed(instruction);
    }

    /** `message`: append the user turn, send the whole transcript, append the reply and return
        it. When the call raises the user turn stays and the exception propagates. */
    method Message(message: string, complete: (string, seq<Entry>) -> Completion, imagesUrls: Option<seq<string>> := None)
      returns (r: Result<string>)
      requires Valid()
      modifies this
      ensures Valid()
      ensures model == old(model)
      ensures var sent := old(transcript) + [UserTurn(message, imagesUrls)];
        match complete(model, sent)
        case Replied(content) =>
          && transcript == sent + [Entry(Assistant, Plain(content))]
          && r == Ok(content)
        case Failed =>
          && transcript == sent
          && r == Err(ApiError)
      ensures r.Ok? ==> old(WellFormed(transcript)) ==> WellFormed(transcript)
      ensures r.Ok? ==> |transcript| == old(|transcript|) + 2 && transcript[..old(|transcript|)] == old(transcript)
    {
      var user := UserTurn(message, imagesUrls);
      ghost var before := transcript;
      ConsistentExtend(transcript, user, Entry(Assistant, Plain("")));
      transcript := transcript + [user];
      var response := complete(model, transcript);
      if response.Failed? {
        return Err(ApiError);
      }
      var result := response.content;
      var reply := Entry(Assistant, Plain(result));
      ConsistentExtend(before, user, reply);
      if WellFormed(before) {
        WellFormedExtend(before, user, reply);
      }
      assert transcript + [reply] == before + [user, reply];
      transcript := transcript + [reply];
      assert transcript[..|before|] == before;
      return Ok(result);
    }
  }
}
