/**
 * The first step of parsing a reply in `generate_tweets`: a reply that holds a code fence
 * (three backticks) is cut at the fences and replaced by the first part that does not start
 * like code.
 */
module CodeFences {
  import opened Strings

  const Fence: string := "```"
  /** A fence-separated part starting with one of these is taken for code and skipped. */
  const CodePrefixes: seq<string> := ["json", "python", "javascript", "{"]

  /** The first fence-separated part that does not look like code, stripped; `text` when there is none. */
  function FirstCodeFree(parts: seq<string>, text: string): string
  {
    if parts == [] then text
    else if !StartsWithAny(Strip(parts[0]), CodePrefixes) then Strip(parts[0])
    else FirstCodeFree(parts[1..], text)
  }

  /** The text once code fences are dealt with. */
  function RemoveFences(text: string): string {
    if Contains(text, Fence) then FirstCodeFree(Split(text, Fence), text) else text
  }

  /** `generate_tweets`, the fence step: when the text holds a fence, the first part that is not code, stripped. */
  method StripCodeFences(text: string) returns (result: string)
    ensures result == RemoveFences(text)
  {
    result := text;
    if Contains(text, Fence) {
      var parts := Split(text, Fence);
      var i := 0;
      while i < |parts|
        invariant 0 <= i <= |parts|
        invariant result == text
        invariant FirstCodeFree(parts[i..], text) == RemoveFences(text)
      {
        assert parts[i..][1..] == parts[i + 1..];
        if !StartsWithAny(Strip(parts[i]), CodePrefixes) {
          result := Strip(parts[i]);
          break;
        }
        i := i + 1;
      }
    }
  }

  /**
   * With a fence in the text, the result is the first stripped part that does not start like code,
   * every earlier part starting like code; when every part does, the text is left as it was.
   */
  lemma FenceCharacterisation(text: string) returns (j: nat)
    requires Contains(text, Fence)
    ensures var parts := Split(text, Fence);
      && j <= |parts|
      && (forall i :: 0 <= i < j ==> StartsWithAny(Strip(parts[i]), CodePrefixes))
      && (j < |parts| ==> !StartsWithAny(Strip(parts[j]), CodePrefixes) && RemoveFences(text) == Strip(parts[j]))
      && (j == |parts| ==> RemoveFences(text) == text)
  {
    var parts := Split(text, Fence);
    j := FirstCodeFreeIndex(parts, text);
  }

  lemma {:induction false} FirstCodeFreeIndex(parts: seq<string>, text: string) returns (j: nat)
    ensures j <= |parts|
    ensures forall i :: 0 <= i < j ==> StartsWithAny(Strip(parts[i]), CodePrefixes)
    ensures j < |parts| ==> !StartsWithAny(Strip(parts[j]), CodePrefixes) && FirstCodeFree(parts, text) == Strip(parts[j])
    ensures j == |parts| ==> FirstCodeFree(parts, text) == text
  {
    if parts == [] {
      j := 0;
    } else if !StartsWithAny(Strip(parts[0]), CodePrefixes) {
      j := 0;
    } else {
      var k := FirstCodeFreeIndex(parts[1..], text);
      j := k + 1;
      forall i | 0 <= i < j ensures StartsWithAny(Strip(parts[i]), CodePrefixes) {
        if i > 0 { assert parts[i] == parts[1..][i - 1]; }
      }
    }
  }

  /** A text that opens with a fence has an empty first part, which is not code, so nothing is left. */
  lemma LeadingFenceEmptiesText(text: string)
    requires StartsWith(text, Fence)
    ensures RemoveFences(text) == ""
  {
    assert Contains(text, Fence);
    var parts := Split(text, Fence);
    assert parts[0] == "";
    EmptyStartsWithNone(CodePrefixes);
    assert Strip(parts[0]) == "";
  }
}
