/**
 * Message validation and input sanitising (app/utils/validators.py).
 * White space is the ASCII white space of `Strings.IsSpace`.
 */
module Validators {
  import opened Wrappers
  import opened Strings
  import opened Json

  const ValidRoles: seq<string> := ["user", "assistant", "system"]

  /**
   * `validate_message_structure`: a dict whose "role" and "content" are both
   * strings, with one of the three accepted roles.
   */
  function ValidateMessageStructure(message: Json): (ok: bool)
    ensures ok <==> message.Obj?
                    && Get(message.entries, "role").Some? && Get(message.entries, "role").value.Str?
                    && Get(message.entries, "content").Some? && Get(message.entries, "content").value.Str?
                    && Get(message.entries, "role").value.s in ValidRoles
  {
    if !message.Obj? then false
    else
      var role := Get(message.entries, "role");
      var content := Get(message.entries, "content");
      if role.None? || content.None? then false
      else if !role.value.Str? || !content.value.Str? then false
      else role.value.s in ValidRoles
  }

  /** A "tool" message is rejected, whatever else it holds. */
  lemma ToolRoleRejected(message: Json)
    requires message.Obj? && Get(message.entries, "role") == Some(Str("tool"))
    ensures !ValidateMessageStructure(message)
  {
    assert "tool" !in ValidRoles;
  }

  /** `validate_message_list`: a list all of whose messages are valid. */
  method ValidateMessageList(messages: Json) returns (ok: bool)
    ensures ok <==> messages.Arr? && forall i :: 0 <= i < |messages.items| ==> ValidateMessageStructure(messages.items[i])
  {
    if !messages.Arr? {
      return false;
    }
    var items := messages.items;
    var i := 0;
    while i < |items|
      invariant 0 <= i <= |items|
      invariant forall j :: 0 <= j < i ==> ValidateMessageStructure(items[j])
    {
      if !ValidateMessageStructure(items[i]) {
        return false;
      }
      i := i + 1;
    }
    return true;
  }

  /** `text.replace('\x00', '')`. */
  function RemoveNul(text: string): (r: string)
    ensures '\0' !in r
    ensures forall c :: c != '\0' ==> multiset(r)[c] == multiset(text)[c]
    ensures '\0' !in text ==> r == text
  {
    if text == [] then []
    else
      assert text == [text[0]] + text[1..];
      if text[0] == '\0' then RemoveNul(text[1..]) else [text[0]] + RemoveNul(text[1..])
  }

  /**
   * Removing NULs works piecewise and keeps order: a NUL disappears, any
   * other character stays, and the pieces stay in place. Together these
   * determine the result for every text.
   */
  lemma {:induction false} RemoveNulConcat(a: string, b: string)
    ensures RemoveNul(a + b) == RemoveNul(a) + RemoveNul(b)
    decreases |a|
  {
    if a != [] {
      assert (a + b)[1..] == a[1..] + b;
      RemoveNulConcat(a[1..], b);
    } else {
      assert a + b == b;
    }
  }

  lemma RemoveNulChar(c: char)
    ensures RemoveNul([c]) == if c == '\0' then [] else [c]
  {
    assert [c][1..] == [];
  }

  /** `sanitize_input`: remove every NUL character, then strip the surrounding white space. */
  function SanitizeInput(text: string): (r: string)
    ensures '\0' !in r
    ensures r != [] ==> !IsSpace(r[0]) && !IsSpace(r[|r| - 1])
    ensures forall c :: c in r ==> c in text
  {
    var removed := RemoveNul(text);
    var r := Strip(removed);
    assert forall c :: c in r ==> c in removed;
    assert forall c :: c in removed ==> c in text by {
      forall c | c in removed ensures c in text {
        assert c != '\0';
        assert multiset(removed)[c] > 0;
      }
    }
    r
  }

  /** Sanitising twice is sanitising once. */
  lemma SanitizeIdempotent(text: string)
    ensures SanitizeInput(SanitizeInput(text)) == SanitizeInput(text)
  {
    var once := SanitizeInput(text);
    assert RemoveNul(once) == once;
    StripFixed(once);
  }
}
