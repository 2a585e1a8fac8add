/** Which message of a ticket is classified (app/classification/inputs.py). */
module ClassificationInput {
  import opened Base

  datatype Author = Agent | Customer | System

  /** `createdAt` is the UTC instant, `id` the UUID's integer. */
  datatype TicketMessage = TicketMessage(id: nat, createdAt: int, author: Author, body: string)

  datatype InputError = TooLarge | DuplicateMessage

  /** What the fingerprint hashes. A hash without collisions is its argument. */
  datatype Fingerprint = Fingerprint(subject: string, body: string, messageId: Option<nat>)

  datatype Prepared = Prepared(fingerprint: Fingerprint, insufficientContext: bool)

  const MAX_SUBJECT: nat := 300
  const MAX_BODY: nat := 8000

  /** The tie-break key: instant first, then id. */
  predicate Before(a: TicketMessage, b: TicketMessage) {
    a.createdAt < b.createdAt || (a.createdAt == b.createdAt && a.id < b.id)
  }

  function Ids(messages: seq<TicketMessage>): set<nat> {
    set m | m in messages :: m.id
  }

  /** `min` over the non-system messages; the first of equal keys. */
  function Opening(messages: seq<TicketMessage>): Option<TicketMessage> {
    if messages == [] then None
    else
      var m, rest := messages[0], Opening(messages[1..]);
      if m.author.System? then rest
      else if rest.Some? && Before(rest.value, m) then rest
      else Some(m)
  }

  /** What Python's `str.isspace` accepts. */
  predicate Space(c: char) {
    var u := c as int;
    || 0x9 <= u <= 0xD || 0x1C <= u <= 0x20 || u == 0x85 || u == 0xA0 || u == 0x1680 || 0x2000 <= u <= 0x200A
    || u == 0x2028 || u == 0x2029 || u == 0x202F || u == 0x205F || u == 0x3000
  }

  /** Python's `str.strip` leaves nothing. */
  predicate Blank(s: string) {
    forall c :: c in s ==> Space(c)
  }

  /** The code points of `str.isspace`, one by one. */
  const SPACES: seq<int> :=
    [9, 10, 11, 12, 13, 28, 29, 30, 31, 32, 133, 160, 5760, 8192, 8193, 8194, 8195, 8196, 8197, 8198, 8199, 8200,
     8201, 8202, 8232, 8233, 8239, 8287, 12288]

  lemma SpaceIsListed(c: char)
    ensures Space(c) <==> c as int in SPACES
  {
  }

  /** Python's `str.strip`. */
  function Strip(s: string): string {
    if s == "" then ""
    else if Space(s[0]) then Strip(s[1..])
    else if Space(s[|s| - 1]) then Strip(s[..|s| - 1])
    else s
  }

  /** A blank text is one that stripping empties. */
  lemma {:induction false} BlankIsStripped(s: string)
    ensures Strip(s) == "" <==> Blank(s)
    decreases |s|
  {
    if s != "" {
      assert s[0] in s && s[|s| - 1] in s;
      if Space(s[0]) {
        BlankIsStripped(s[1..]);
        assert s == [s[0]] + s[1..];
      } else if Space(s[|s| - 1]) {
        BlankIsStripped(s[..|s| - 1]);
        assert s == s[..|s| - 1] + [s[|s| - 1]];
      }
    }
  }

  function PrepareInput(subject: string, messages: seq<TicketMessage>): Result<Prepared, InputError> {
    if |subject| > MAX_SUBJECT then Err(TooLarge)
    else if |Ids(messages)| != |messages| then Err(DuplicateMessage)
    else
      var opening := Opening(messages);
      var body := if opening.Some? then opening.value.body else "";
      if |body| > MAX_BODY then Err(TooLarge)
      else
        Ok(Prepared(Fingerprint(subject, body, if opening.Some? then Some(opening.value.id) else None),
                    opening.None? || (Blank(subject) && Blank(body))))
  }

  /** The fingerprint alone decides whether there is anything to classify. */
  predicate Insufficient(f: Fingerprint) {
    f.messageId.None? || (Blank(f.subject) && Blank(f.body))
  }

  lemma PreparedFromFingerprint(subject: string, messages: seq<TicketMessage>)
    requires PrepareInput(subject, messages).Ok?
    ensures PrepareInput(subject, messages).value.insufficientContext
            == Insufficient(PrepareInput(subject, messages).value.fingerprint)
  {
  }

  // ------------------------------------------------------------------ distinct ids

  lemma {:induction false} DistinctIds(messages: seq<TicketMessage>)
    ensures |Ids(messages)| <= |messages|
    ensures |Ids(messages)| == |messages| ==>
      forall a, b :: a in messages && b in messages && a.id == b.id ==> a == b
  {
    if messages != [] {
      var m, rest := messages[0], messages[1..];
      DistinctIds(rest);
      assert messages == [m] + rest;
      assert Ids(messages) == {m.id} + Ids(rest);
      if |Ids(messages)| == |messages| {
        assert m.id in Ids(rest) ==> {m.id} + Ids(rest) == Ids(rest);
        forall a, b | a in messages && b in messages && a.id == b.id ensures a == b {
          if a in rest { assert a.id in Ids(rest); }
          if b in rest { assert b.id in Ids(rest); }
        }
      }
    }
  }

  // ------------------------------------------------------------------ the opening is the least

  /** `m` is a non-system message and no other one has a smaller key. */
  ghost predicate IsOpening(messages: seq<TicketMessage>, m: TicketMessage) {
    m in messages && !m.author.System? && forall x :: x in messages && !x.author.System? ==> !Before(x, m)
  }

  lemma {:induction false} OpeningIsLeast(messages: seq<TicketMessage>)
    ensures Opening(messages).Some? ==> IsOpening(messages, Opening(messages).value)
    ensures Opening(messages).None? <==> forall x :: x in messages ==> x.author.System?
  {
    if messages != [] {
      assert messages == [messages[0]] + messages[1..];
      OpeningIsLeast(messages[1..]);
    }
  }

  /** No message of a person: nothing to classify. */
  predicate OnlySystem(messages: seq<TicketMessage>) {
    forall x :: x in messages ==> x.author.System?
  }

  /** Refused for size or a repeated id; otherwise the fingerprint is the subject and the opening's id and body. */
  lemma PrepareMeans(subject: string, messages: seq<TicketMessage>)
    ensures var prepared := PrepareInput(subject, messages);
            && (|subject| > 300 ==> prepared == Err(TooLarge))
            && (|subject| <= 300 && |Ids(messages)| != |messages| ==> prepared == Err(DuplicateMessage))
            && (|subject| <= 300 && |Ids(messages)| == |messages| ==>
                  && (OnlySystem(messages) ==> prepared == Ok(Prepared(Fingerprint(subject, "", None), true)))
                  && (forall m :: IsOpening(messages, m) ==>
                        if |m.body| > 8000 then prepared == Err(TooLarge)
                        else prepared == Ok(Prepared(Fingerprint(subject, m.body, Some(m.id)),
                                                     Strip(subject) == "" && Strip(m.body) == ""))))
  {
    OpeningIsLeast(messages);
    DistinctIds(messages);
    BlankIsStripped(subject);
    forall m | |Ids(messages)| == |messages| && IsOpening(messages, m) ensures Opening(messages) == Some(m) {
      var first := Opening(messages).value;
      assert !Before(first, m) && !Before(m, first);
      assert first.id == m.id;
    }
    forall m | m in messages ensures Strip(m.body) == "" <==> Blank(m.body) {
      BlankIsStripped(m.body);
    }
  }

  /** With distinct ids the opening depends only on which messages there are. */
  lemma OpeningUnique(first: seq<TicketMessage>, second: seq<TicketMessage>)
    requires |Ids(first)| == |first|
    requires forall m :: m in first && !m.author.System? <==> m in second && !m.author.System?
    ensures Opening(first) == Opening(second)
  {
    DistinctIds(first);
    OpeningIsLeast(first);
    OpeningIsLeast(second);
    if Opening(first).Some? {
      var a := Opening(first).value;
      assert a in second;
      var b := Opening(second).value;
      assert b in first && !Before(b, a) && !Before(a, b);
      assert a.id == b.id;
    }
  }

  /** The order the messages come in does not matter. */
  lemma PermutationKeepsInput(subject: string, first: seq<TicketMessage>, second: seq<TicketMessage>)
    requires multiset(first) == multiset(second)
    ensures PrepareInput(subject, first) == PrepareInput(subject, second)
  {
    assert forall m :: m in first <==> m in multiset(first);
    assert forall m :: m in second <==> m in multiset(second);
    assert Ids(first) == Ids(second);
    assert |first| == |multiset(first)| && |second| == |multiset(second)|;
    if |Ids(first)| == |first| {
      OpeningUnique(first, second);
    }
  }

  /** A system message, or a message later than the opening. */
  predicate FollowUp(messages: seq<TicketMessage>, m: TicketMessage) {
    m.author.System? || (Opening(messages).Some? && Before(Opening(messages).value, m))
  }

  lemma OpeningAfter(messages: seq<TicketMessage>, m: TicketMessage)
    requires m.id !in Ids(messages) && |Ids(messages)| == |messages|
    ensures Opening(messages + [m]) == if FollowUp(messages, m) then Opening(messages) else Some(m)
    ensures |Ids(messages + [m])| == |messages + [m]|
  {
    var longer := messages + [m];
    assert Ids(longer) == Ids(messages) + {m.id};
    DistinctIds(longer);
    OpeningIsLeast(messages);
    OpeningIsLeast(longer);
    var expected := if FollowUp(messages, m) then Opening(messages) else Some(m);
    if expected.Some? {
      assert expected.value in longer && !expected.value.author.System?;
      var found := Opening(longer).value;
      assert !Before(expected.value, found) && !Before(found, expected.value);
      assert found.id == expected.value.id;
    }
  }

  /**
   A new message leaves the prepared input and its fingerprint alone exactly when it is a
   follow-up, wherever in the list it appears.
   */
  lemma FollowUpKeepsInput(subject: string, messages: seq<TicketMessage>, m: TicketMessage, all: seq<TicketMessage>)
    requires m.id !in Ids(messages) && multiset(all) == multiset(messages + [m])
    requires PrepareInput(subject, messages).Ok?
    ensures PrepareInput(subject, all) == PrepareInput(subject, messages) <==> FollowUp(messages, m)
  {
    PermutationKeepsInput(subject, all, messages + [m]);
    OpeningAfter(messages, m);
    OpeningIsLeast(messages);
    if !FollowUp(messages, m) && Opening(messages).Some? {
      assert Opening(messages).value.id in Ids(messages);
    }
  }
}
