/** Answer encoding: the letters chosen for the nine questions become ordinal
    codes. Every question except Q8 is coded by severity (A/B/C -> 0/1/2);
    Q8, the level of human review, is coded by review strength (A/B/C -> 2/1/0).
    Both codings are dictionary lookups, so any other key is rejected. */
module Encoding {

  /** An ordinal code of one answer. */
  type Level = x: int | 0 <= x <= 2

  /** The only failure of the engine: a lookup with a key other than A, B or C. */
  datatype Error = InvalidAnswer(key: string)

  datatype Result<T> = Ok(value: T) | Err(error: Error) {
    predicate IsFailure() { Err? }
    function PropagateFailure<U>(): Result<U> requires Err? { Err(error) }
    function Extract(): T requires Ok? { value }
  }

  const ValidKeys: set<string> := {"A", "B", "C"}

  const SevTable: map<string, Level> := map["A" := 0, "B" := 1, "C" := 2]
  const StrengthTable: map<string, Level> := map["A" := 2, "B" := 1, "C" := 0]

  /** The answer whose severity is `l`. */
  function KeyOf(l: Level): (k: string)
    ensures k in ValidKeys
  {
    if l == 0 then "A" else if l == 1 then "B" else "C"
  }

  /** Severity of an answer: A, B, C give 0, 1, 2; any other key fails. */
  function Sev(choiceKey: string): (r: Result<Level>)
    ensures r.Ok? <==> choiceKey in ValidKeys
    ensures r.Ok? ==> KeyOf(r.value) == choiceKey
    ensures r.Err? ==> r.error == InvalidAnswer(choiceKey)
  {
    if choiceKey in SevTable then Ok(SevTable[choiceKey]) else Err(InvalidAnswer(choiceKey))
  }

  /** Review strength of a Q8 answer: A (thorough), B (basic), C (minimal)
      give 2, 1, 0; any other key fails. */
  function ReviewStrength(choiceKey: string): (r: Result<Level>)
    ensures r.Ok? <==> choiceKey in ValidKeys
    ensures r.Ok? ==> KeyOf(2 - r.value) == choiceKey
    ensures r.Err? ==> r.error == InvalidAnswer(choiceKey)
  {
    if choiceKey in StrengthTable then Ok(StrengthTable[choiceKey]) else Err(InvalidAnswer(choiceKey))
  }

  /** Severity coding is invertible: the letter of a level codes back to it. */
  lemma SevRoundTrip(l: Level)
    ensures Sev(KeyOf(l)) == Ok(l)
  {
  }

  /** Review strength is severity read backwards: the higher the letter,
      the weaker the review. */
  lemma StrengthMirrorsSeverity(choiceKey: string)
    ensures ReviewStrength(choiceKey).Ok? == Sev(choiceKey).Ok?
    ensures Sev(choiceKey).Ok? ==> ReviewStrength(choiceKey).value == 2 - Sev(choiceKey).value
  {
  }

  /** The nine answers as the questionnaire supplies them. */
  datatype Answers = Answers(q1: string, q2: string, q3: string, q4: string, q5: string,
                             q6: string, q7: string, q8: string, q9: string)

  /** The nine codes; `q8` holds the review strength, all others a severity. */
  datatype Codes = Codes(q1: Level, q2: Level, q3: Level, q4: Level, q5: Level,
                         q6: Level, q7: Level, q8: Level, q9: Level)

  /** The order in which the answers are looked up: Q1 to Q7, Q9, then Q8. */
  function LookupOrder(a: Answers): seq<string>
  {
    [a.q1, a.q2, a.q3, a.q4, a.q5, a.q6, a.q7, a.q9, a.q8]
  }

  /** `key` is the first entry of `keys` that is not a valid answer. */
  ghost predicate FirstInvalid(keys: seq<string>, key: string)
  {
    exists i :: 0 <= i < |keys| && keys[i] == key && key !in ValidKeys &&
      forall j :: 0 <= j < i ==> keys[j] in ValidKeys
  }

  /** The answers that the codes were computed from. */
  function Decode(c: Codes): Answers
  {
    Answers(KeyOf(c.q1), KeyOf(c.q2), KeyOf(c.q3), KeyOf(c.q4), KeyOf(c.q5),
            KeyOf(c.q6), KeyOf(c.q7), KeyOf(2 - c.q8), KeyOf(c.q9))
  }

  /** Codes all nine answers, failing on the first invalid key looked up. */
  function Encode(a: Answers): (r: Result<Codes>)
    ensures r.Ok? <==> forall k | k in LookupOrder(a) :: k in ValidKeys
    ensures r.Ok? ==> Decode(r.value) == a
  {
    var q1 :- Sev(a.q1);
    var q2 :- Sev(a.q2);
    var q3 :- Sev(a.q3);
    var q4 :- Sev(a.q4);
    var q5 :- Sev(a.q5);
    var q6 :- Sev(a.q6);
    var q7 :- Sev(a.q7);
    var q9 :- Sev(a.q9);
    var q8 :- ReviewStrength(a.q8);
    Ok(Codes(q1, q2, q3, q4, q5, q6, q7, q8, q9))
  }

  /** Decoding then encoding gives the codes back: no two answer sheets share codes. */
  lemma EncodeDecode(c: Codes)
    ensures Encode(Decode(c)) == Ok(c)
  {
    SevRoundTrip(c.q1); SevRoundTrip(c.q2); SevRoundTrip(c.q3);
    SevRoundTrip(c.q4); SevRoundTrip(c.q5); SevRoundTrip(c.q6);
    SevRoundTrip(c.q7); SevRoundTrip(c.q9);
  }

  /** A rejected answer sheet is reported by its first invalid key in lookup order. */
  lemma EncodeReportsFirstInvalid(a: Answers)
    requires Encode(a).Err?
    ensures FirstInvalid(LookupOrder(a), Encode(a).error.key)
  {
    var keys := LookupOrder(a);
    var i := if keys[0] !in ValidKeys then 0
      else if keys[1] !in ValidKeys then 1
      else if keys[2] !in ValidKeys then 2
      else if keys[3] !in ValidKeys then 3
      else if keys[4] !in ValidKeys then 4
      else if keys[5] !in ValidKeys then 5
      else if keys[6] !in ValidKeys then 6
      else if keys[7] !in ValidKeys then 7
      else 8;
    assert keys[i] == Encode(a).error.key;
  }
}
