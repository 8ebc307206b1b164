/**
 * The signed-in user's menu: the avatar initials, the name it is built from,
 * the role badge colour and the render guard.
 */
module UserMenu {
  import opened Wrappers
  import Text
  import Seqs

  /** `words.map(word => word[0]).join('')`: an empty word's `word[0]` is
      undefined, which joins as nothing. */
  function FirstChars(words: seq<string>): string
    decreases |words|
  {
    if |words| == 0 then ""
    else (if words[0] == "" then "" else [words[0][0]]) + FirstChars(words[1..])
  }

  /** getInitials */
  function GetInitials(name: string): string {
    Text.SliceFront(Text.ToUpperCase(FirstChars(Text.Split(name, ' '))), 2)
  }

  /** The non-empty words of a name. */
  function Words(name: string): seq<string> {
    Seqs.Filter(Text.Split(name, ' '), (w: string) => w != "")
  }

  /** One character per non-empty word, each the upper-cased first character of that word. */
  lemma {:induction false} FirstCharsSpec(words: seq<string>)
    ensures var ne := Seqs.Filter(words, (w: string) => w != "");
      |FirstChars(words)| == |ne|
      && forall i :: 0 <= i < |ne| ==> FirstChars(words)[i] == ne[i][0]
    decreases |words|
  {
    if |words| > 0 {
      FirstCharsSpec(words[1..]);
    }
  }

  /** Empty words, from leading, trailing or repeated spaces, contribute nothing. */
  lemma {:induction false} EmptyWordsIgnored(words: seq<string>)
    ensures FirstChars(Seqs.Filter(words, (w: string) => w != "")) == FirstChars(words)
    decreases |words|
  {
    if |words| > 0 {
      EmptyWordsIgnored(words[1..]);
    }
  }

  /** The initials are the upper-cased first characters of the first two
      non-empty words: never more than two, and fewer only for a shorter name. */
  lemma GetInitialsSpec(name: string)
    ensures |GetInitials(name)| <= 2
    ensures |GetInitials(name)| == if |Words(name)| < 2 then |Words(name)| else 2
    ensures forall i :: 0 <= i < |GetInitials(name)| ==> GetInitials(name)[i] == Text.UpperChar(Words(name)[i][0])
  {
    FirstCharsSpec(Text.Split(name, ' '));
  }

  /** The name the initials are built from: the full name unless it is empty or missing. */
  function DisplayName(fullName: Option<string>, email: string): (r: string)
    ensures fullName.Some? && fullName.value != "" ==> r == fullName.value
    ensures fullName.None? || fullName.value == "" ==> r == email
    ensures r == email <==> fullName.None? || fullName.value == "" || fullName.value == email
  {
    if fullName.Some? && fullName.value != "" then fullName.value else email
  }

  /** getRoleBadgeColor */
  function RoleBadgeColor(role: string): string {
    if role == "admin" then "bg-purple-500"
    else if role == "doctor" then "bg-green-500"
    else if role == "patient" then "bg-blue-500"
    else "bg-slate-500"
  }

  /** Purple for admin, green for doctor, blue for patient; every other role is slate. */
  lemma RoleBadgeColorSpec(role: string)
    ensures RoleBadgeColor(role) == "bg-slate-500" <==> role !in ["admin", "doctor", "patient"]
    ensures RoleBadgeColor(role) == "bg-purple-500" <==> role == "admin"
    ensures RoleBadgeColor(role) == "bg-green-500" <==> role == "doctor"
    ensures RoleBadgeColor(role) == "bg-blue-500" <==> role == "patient"
  {
  }
}
