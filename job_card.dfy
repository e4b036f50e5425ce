/**
 * The decisions a job card makes (components/JobCard.tsx): the colour stripe,
 * the status badge class and label, and which action button it shows.
 * The status arrives as the text the row holds, in whatever spelling.
 */
module JobCard {
  import opened Wrappers
  import opened Domain

  const SnowStripe := "bg-blue-500"
  const LawnStripe := "bg-green-500"

  /** The stripe colour; any category other than exactly 'SNOW' (even a missing one) is drawn as lawn. */
  function Stripe(category: string): (r: string)
    ensures r == SnowStripe <==> category == "SNOW"
    ensures r in {SnowStripe, LawnStripe}
  {
    if category == "SNOW" then SnowStripe else LawnStripe
  }

  /** The badge class table, looked up by the status text; an unknown key gives nothing. */
  function StatusColor(status: string): (r: Option<string>)
    ensures r.Some? <==> ParseStatus(status).Some?
  {
    if status == "PENDING" then Some("bg-yellow-100 text-yellow-800")
    else if status == "ACCEPTED" then Some("bg-blue-100 text-blue-800")
    else if status == "IN_PROGRESS" then Some("bg-purple-100 text-purple-800")
    else if status == "COMPLETED" then Some("bg-green-100 text-green-800")
    else if status == "CANCELLED" then Some("bg-red-100 text-red-800")
    else None
  }

  /** The table has a class for exactly the five statuses, and a different one for each. */
  lemma StatusColorExact(s1: JobStatus, s2: JobStatus)
    ensures s1 != s2 ==> StatusColor(StatusName(s1)) != StatusColor(StatusName(s2))
    ensures StatusColor("OPEN") == None && StatusColor("accepted") == None
  {
  }

  /** The position of the first '_' in `s`, or `|s|` when there is none. */
  function FirstUnderscore(s: string): (i: nat)
    ensures i <= |s|
    ensures i < |s| ==> s[i] == '_'
    ensures forall k :: 0 <= k < i ==> s[k] != '_'
  {
    if s == [] || s[0] == '_' then 0 else 1 + FirstUnderscore(s[1..])
  }

  /** `status.replace('_', ' ')`: only the first underscore becomes a space. */
  function ReplaceFirstUnderscore(s: string): (r: string)
    ensures |r| == |s|
    ensures forall k :: 0 <= k < |s| ==> r[k] == (if k == FirstUnderscore(s) then ' ' else s[k])
  {
    if s == [] then []
    else if s[0] == '_' then [' '] + s[1..]
    else
      var rest := ReplaceFirstUnderscore(s[1..]);
      assert FirstUnderscore(s) == 1 + FirstUnderscore(s[1..]);
      [s[0]] + rest
  }

  function StatusLabel(status: string): (r: string)
    ensures |r| == |status|
    ensures '_' !in status ==> r == status
  {
    ReplaceFirstUnderscore(status)
  }

  /** IN_PROGRESS, the one status with an underscore, reads as two words. */
  lemma InProgressLabel()
    ensures StatusLabel(StatusName(InProgress)) == "IN PROGRESS"
  {
    var n := StatusName(InProgress);
    assert n[0] != '_' && n[1] != '_' && n[2] == '_';
    assert FirstUnderscore(n) == 2;
    var t := ReplaceFirstUnderscore(n);
    forall k | 0 <= k < |n| ensures t[k] == "IN PROGRESS"[k] {
    }
    assert t == "IN PROGRESS";
  }

  /** Every other status is shown by its name as is. */
  lemma OtherLabels(s: JobStatus)
    requires s != InProgress
    ensures StatusLabel(StatusName(s)) == StatusName(s)
  {
    var m := StatusName(s);
    assert forall k :: 0 <= k < |m| ==> m[k] != '_';
  }

  /**
   * The buttons the card renders, in order: three independent conditions on
   * the role and the status text.
   */
  function Buttons(role: UserRole, status: string): (r: seq<string>)
    ensures |r| <= 1
    ensures r != [] ==> role == Provider
  {
    (if role == Provider && status == "PENDING" then ["accept"] else [])
    + (if role == Provider && status == "ACCEPTED" then ["start"] else [])
    + (if role == Provider && status == "IN_PROGRESS" then ["complete"] else [])
  }

  /** At most one button; none unless a provider looks at a PENDING, ACCEPTED or IN_PROGRESS job. */
  lemma AtMostOneButton(role: UserRole, status: string)
    ensures |Buttons(role, status)| == 1 <==>
      role == Provider && ParseStatus(status) in {Some(Pending), Some(Accepted), Some(InProgress)}
  {
  }

  /** The provider's button per status; completed, cancelled and unknown statuses such as 'OPEN' offer none. */
  lemma ProviderButtons(status: string)
    ensures Buttons(Provider, "PENDING") == ["accept"]
    ensures Buttons(Provider, "ACCEPTED") == ["start"]
    ensures Buttons(Provider, "IN_PROGRESS") == ["complete"]
    ensures ParseStatus(status) !in {Some(Pending), Some(Accepted), Some(InProgress)} ==> Buttons(Provider, status) == []
  {
  }

  /** Pressing a shown button: the action reaches the dashboard only when a callback was passed. */
  function Press(action: string, callbackSupplied: bool): (r: Option<string>)
    ensures r.Some? <==> callbackSupplied
    ensures r.Some? ==> r.value == action
  {
    if callbackSupplied then Some(action) else None
  }
}
