/** The confirmation loop: prompt until a response is, case-insensitively,
    "yes" (proceed) or "no" (decline); any other response re-prompts. The
    responses are given as a sequence; running out of them ends the loop
    without a decision, as end of input does. */
module Confirmation {

  /** ASCII lowercasing of one character. */
  function LowerChar(c: char): char {
    if 'A' <= c <= 'Z' then (c as int + 32) as char else c
  }

  function Lower(s: string): (r: string)
    ensures |r| == |s|
  {
    seq(|s|, i requires 0 <= i < |s| => LowerChar(s[i]))
  }

  predicate IsYes(s: string) {
    Lower(s) == "yes"
  }

  predicate IsNo(s: string) {
    Lower(s) == "no"
  }

  /** None of the first `n` responses is an answer. */
  predicate NoAnswerBefore(responses: seq<string>, n: int)
    requires n <= |responses|
  {
    forall k :: 0 <= k < n ==> !IsYes(responses[k]) && !IsNo(responses[k])
  }

  datatype Decision = Proceed | Decline | Exhausted

  /** "yes" in any mix of cases is accepted, and nothing else. */
  lemma IsYesIff(s: string)
    ensures IsYes(s) <==> |s| == 3 && (s[0] == 'y' || s[0] == 'Y') && (s[1] == 'e' || s[1] == 'E') &&
                          (s[2] == 's' || s[2] == 'S')
  {
    if IsYes(s) {
      assert Lower(s)[0] == 'y' && Lower(s)[1] == 'e' && Lower(s)[2] == 's';
    }
    if |s| == 3 && (s[0] == 'y' || s[0] == 'Y') && (s[1] == 'e' || s[1] == 'E') && (s[2] == 's' || s[2] == 'S') {
      assert Lower(s) == "yes";
    }
  }

  /** "no" in any mix of cases is accepted, and nothing else. */
  lemma IsNoIff(s: string)
    ensures IsNo(s) <==> |s| == 2 && (s[0] == 'n' || s[0] == 'N') && (s[1] == 'o' || s[1] == 'O')
  {
    if IsNo(s) {
      assert Lower(s)[0] == 'n' && Lower(s)[1] == 'o';
    }
    if |s| == 2 && (s[0] == 'n' || s[0] == 'N') && (s[1] == 'o' || s[1] == 'O') {
      assert Lower(s) == "no";
    }
  }

  /** The loop: `consumed` responses are read; the decision is the first
      answer among them, and every response before it is not an answer. */
  method AwaitConfirmation(responses: seq<string>) returns (d: Decision, consumed: nat)
    ensures consumed <= |responses|
    ensures d == Proceed ==> 0 < consumed && IsYes(responses[consumed - 1]) && NoAnswerBefore(responses, consumed - 1)
    ensures d == Decline ==> 0 < consumed && IsNo(responses[consumed - 1]) && NoAnswerBefore(responses, consumed - 1)
    ensures d == Exhausted ==> consumed == |responses| && NoAnswerBefore(responses, |responses|)
  {
    var userInput := "";
    consumed := 0;
    while !IsYes(userInput)
      invariant consumed <= |responses|
      invariant consumed == 0 ==> userInput == ""
      invariant 0 < consumed ==> userInput == responses[consumed - 1] && !IsNo(userInput)
      invariant NoAnswerBefore(responses, if consumed == 0 then 0 else consumed - 1)
      decreases |responses| - consumed
    {
      if consumed == |responses| {
        return Exhausted, consumed;
      }
      userInput := responses[consumed];
      consumed := consumed + 1;
      if IsNo(userInput) {
        return Decline, consumed;
      }
    }
    d := Proceed;
  }
}
