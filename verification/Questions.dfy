/** Whether a message asks the same questions as another. */
module Questions {
  import opened Wrappers
  import opened Bytes
  import opened Queries
  import opened Names

  /** A question of a message: its name as text, its type and class, and where the next one starts. */
  datatype Question = Question(name: seq<byte>, qtype: nat, qclass: nat, next: nat)

  function QuestionAt(msg: seq<byte>, p: nat): Option<Question> {
    if LabelsAt(msg, p, 0).None? then None
    else
      var q := p + EncodedLength(msg, p);
      if q + QUESTION_SIZE > |msg| then None
      else
        Some(Question(Text(LabelsAt(msg, p, 0).value), Word(msg[q], msg[q + 1]), Word(msg[q + 2], msg[q + 3]),
                      q + QUESTION_SIZE))
  }

  function Lower(c: byte): byte {
    if 65 <= c <= 90 then c + 32 else c
  }

  /** Equality of C strings but for the case of ASCII letters: up to the first NUL, or the end. */
  predicate SameName(s: seq<byte>, t: seq<byte>) {
    if s == [] || s[0] == 0 then t == [] || t[0] == 0
    else t != [] && Lower(s[0]) == Lower(t[0]) && SameName(s[1..], t[1..])
  }

  predicate SameQuestion(x: Question, y: Question) {
    SameName(x.name, y.name) && x.qtype == y.qtype && x.qclass == y.qclass
  }

  /** The question is among the `count` questions that start at p; a malformed one ends the search. */
  predicate HasQuestion(x: Question, msg: seq<byte>, count: nat, p: nat)
    decreases count
  {
    count > 0 &&
    match QuestionAt(msg, p)
    case None => false
    case Some(y) => SameQuestion(x, y) || HasQuestion(x, msg, count - 1, y.next)
  }

  predicate HasAllQuestions(qbuf: seq<byte>, left: nat, p: nat, abuf: seq<byte>, count: nat)
    requires |abuf| >= HEADER_SIZE
    decreases left
  {
    left == 0 ||
    match QuestionAt(qbuf, p)
    case None => false
    case Some(x) => HasQuestion(x, abuf, count, HEADER_SIZE) && HasAllQuestions(qbuf, left - 1, x.next, abuf, count)
  }

  function QuestionCount(msg: seq<byte>): nat
    requires |msg| >= HEADER_SIZE
  {
    Word(msg[4], msg[5])
  }

  /** Both messages have the same number of questions, and those of the first are among those of the second. */
  predicate SameQuestions(qbuf: seq<byte>, abuf: seq<byte>) {
    && |qbuf| >= HEADER_SIZE && |abuf| >= HEADER_SIZE
    && QuestionCount(qbuf) == QuestionCount(abuf)
    && HasAllQuestions(qbuf, QuestionCount(qbuf), HEADER_SIZE, abuf, QuestionCount(abuf))
  }

  lemma {:induction false} SameNameReflexive(s: seq<byte>)
    ensures SameName(s, s)
  {
    if s != [] && s[0] != 0 {
      SameNameReflexive(s[1..]);
    }
  }

  lemma WrittenQuestion(before: seq<byte>, labels: seq<Label>, fields: seq<byte>, after: seq<byte>)
    requires LabelsOk(labels) && |fields| == QUESTION_SIZE
    ensures QuestionAt(before + Wire(labels) + fields + after, |before|) ==
      Some(Question(Text(labels), Word(fields[0], fields[1]), Word(fields[2], fields[3]),
                    |before| + |Wire(labels)| + QUESTION_SIZE))
  {
    hide LabelsAt, EncodedLength, Text, Wire, Word;
    var w := Wire(labels);
    var msg := before + w + fields + after;
    assert msg == before + w + (fields + after);
    WireRoundTrip(before, labels, fields + after, 0);
    var q := |before| + |w|;
    assert msg[q..q + QUESTION_SIZE] == fields;
    assert forall i :: 0 <= i < QUESTION_SIZE ==> msg[q + i] == fields[i];
  }

  /** A question as it is written: the labels of its name, and four bytes of type and class. */
  datatype Asked = Asked(labels: seq<Label>, fields: seq<byte>)

  ghost predicate AskedOk(qs: seq<Asked>) {
    forall i :: 0 <= i < |qs| ==> LabelsOk(qs[i].labels) && |qs[i].fields| == QUESTION_SIZE
  }

  function WriteOne(q: Asked): seq<byte> { Wire(q.labels) + q.fields }

  /** The questions one after the other. */
  function WriteAll(qs: seq<Asked>): seq<byte> {
    if qs == [] then [] else WriteOne(qs[0]) + WriteAll(qs[1..])
  }

  function AsQuestion(q: Asked, next: nat): Question
    requires |q.fields| == QUESTION_SIZE
  {
    Question(Text(q.labels), Word(q.fields[0], q.fields[1]), Word(q.fields[2], q.fields[3]), next)
  }

  /** The first of the written questions is read, and the others stand after it. */
  lemma FirstWritten(before: seq<byte>, qs: seq<Asked>, after: seq<byte>)
    requires qs != [] && AskedOk(qs)
    ensures var msg, p := before + WriteAll(qs) + after, |before|;
      QuestionAt(msg, p) == Some(AsQuestion(qs[0], |before + WriteOne(qs[0])|))
    ensures before + WriteAll(qs) + after == (before + WriteOne(qs[0])) + WriteAll(qs[1..]) + after
    ensures AskedOk(qs[1..])
  {
    hide QuestionAt, Wire, Word, Text, LabelsOk;
    var q, more := qs[0], WriteAll(qs[1..]);
    assert WriteAll(qs) == WriteOne(q) + more;
    WrittenQuestion(before, q.labels, q.fields, more + after);
    hide WriteAll;
    Regroup(before, Wire(q.labels), q.fields, more, after);
  }

  lemma Regroup(a: seq<byte>, b: seq<byte>, c: seq<byte>, d: seq<byte>, e: seq<byte>)
    ensures a + (b + c + d) + e == a + b + c + (d + e) == (a + (b + c)) + d + e
  {
    assert a + (b + c + d) + e == a + b + c + d + e;
    assert a + b + c + (d + e) == a + b + c + d + e;
    assert a + (b + c) == a + b + c;
  }

  /** A question is found among written ones if it is one of them. */
  lemma {:induction false} FoundAmong(x: Question, k: nat, before: seq<byte>, qs: seq<Asked>, after: seq<byte>)
    requires AskedOk(qs) && k < |qs| && SameQuestion(x, AsQuestion(qs[k], 0))
    ensures HasQuestion(x, before + WriteAll(qs) + after, |qs|, |before|)
    decreases |qs|
  {
    hide QuestionAt, SameName, WriteAll;
    FirstWritten(before, qs, after);
    if k > 0 {
      FoundAmong(x, k - 1, before + WriteOne(qs[0]), qs[1..], after);
    }
  }

  /** The questions from k on are found, each of them in the whole of the other message. */
  lemma {:induction false} AllFound(before: seq<byte>, qs: seq<Asked>, after: seq<byte>, k: nat, header: seq<byte>, all: seq<Asked>, rest: seq<byte>)
    requires AskedOk(qs) && AskedOk(all) && k <= |all| && qs == all[k..] && |header| == HEADER_SIZE
    ensures HasAllQuestions(before + WriteAll(qs) + after, |qs|, |before|, header + WriteAll(all) + rest, |all|)
    decreases |qs|
  {
    hide QuestionAt, SameName, WriteAll, HasQuestion;
    if qs != [] {
      FirstWritten(before, qs, after);
      SameNameReflexive(Text(qs[0].labels));
      FoundAmong(AsQuestion(qs[0], |before + WriteOne(qs[0])|), k, header, all, rest);
      AllFound(before + WriteOne(qs[0]), qs[1..], after, k + 1, header, all, rest);
    }
  }

  /** An answer that repeats the questions of a query, whatever else it holds, asks the same questions. */
  lemma EchoedQuestionsMatch(qs: seq<Asked>, header: seq<byte>, rest: seq<byte>, header': seq<byte>, rest': seq<byte>)
    requires AskedOk(qs) && |header| == |header'| == HEADER_SIZE
    requires Word(header[4], header[5]) == Word(header'[4], header'[5]) == |qs|
    ensures SameQuestions(header + WriteAll(qs) + rest, header' + WriteAll(qs) + rest')
  {
    hide WriteAll, HasAllQuestions;
    AllFound(header, qs, rest, 0, header', qs, rest');
  }
}
