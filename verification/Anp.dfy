/**
 ANP: capability lists and profile negotiation (crates/anp-transport/src) and the
 client's connection states (crates/driver-anp-client/src/state.rs). `sort` and `dedup`
 are modelled by what they return.
 */
module Anp {
  import opened TaskModel
  import opened Text

  // ---------------------------------------------------------------- capability lists

  /** Rust's order on strings: the first difference decides, and a prefix comes first. */
  predicate Less(a: string, b: string) {
    b != "" && (a == "" || a[0] < b[0] || (a[0] == b[0] && Less(a[1..], b[1..])))
  }

  function Kept(raw: seq<string>): seq<string> {
    if raw == [] then []
    else (if Trim(raw[0]) != "" then [Trim(raw[0])] else []) + Kept(raw[1..])
  }

  function Insert(s: string, caps: seq<string>): seq<string> {
    if caps == [] || !Less(caps[0], s) then [s] + caps else [caps[0]] + Insert(s, caps[1..])
  }

  function Sort(caps: seq<string>): seq<string> {
    if caps == [] then [] else Insert(caps[0], Sort(caps[1..]))
  }

  /** Keeps the first of every run of equal elements. */
  function Dedup(caps: seq<string>): seq<string> {
    if |caps| <= 1 then caps
    else if caps[0] == caps[1] then Dedup(caps[1..])
    else [caps[0]] + Dedup(caps[1..])
  }

  function Parse(raw: seq<string>): seq<string> {
    Dedup(Sort(Kept(raw)))
  }

  /** What a raw list advertises, order and repeats aside. */
  function Entries(raw: seq<string>): set<string> {
    set s | s in raw && Trim(s) != "" :: Trim(s)
  }

  // ---------------------------------------------------------------- the order

  lemma {:induction false} LessIsTotal(a: string, b: string)
    ensures Less(a, b) || a == b || Less(b, a)
    ensures Less(a, b) ==> a != b && !Less(b, a)
  {
    if a != "" && b != "" && a[0] == b[0] {
      LessIsTotal(a[1..], b[1..]);
      assert a == [a[0]] + a[1..] && b == [b[0]] + b[1..];
    }
  }

  lemma {:induction false} LessChains(a: string, b: string, c: string)
    requires Less(a, b) && Less(b, c)
    ensures Less(a, c)
  {
    if a != "" && a[0] == b[0] && b[0] == c[0] {
      LessChains(a[1..], b[1..], c[1..]);
    }
  }

  /** The first place at which the texts differ decides. */
  ghost predicate DiffersAt(a: string, b: string, k: nat) {
    k <= |a| && k < |b| && a[..k] == b[..k] && (k == |a| || a[k] < b[k])
  }

  lemma {:induction false} LessIsLexicographic(a: string, b: string)
    ensures Less(a, b) <==> exists k: nat :: DiffersAt(a, b, k)
  {
    if b == "" {
    } else if a == "" || a[0] < b[0] {
      assert DiffersAt(a, b, 0);
    } else if a[0] == b[0] {
      LessIsLexicographic(a[1..], b[1..]);
      if Less(a[1..], b[1..]) {
        var k: nat :| DiffersAt(a[1..], b[1..], k);
        assert a[..k + 1] == [a[0]] + a[1..][..k] && b[..k + 1] == [b[0]] + b[1..][..k];
        assert DiffersAt(a, b, k + 1);
      }
      forall k: nat | DiffersAt(a, b, k) ensures Less(a, b) {
        assert k > 0 && a[1..][..k - 1] == a[..k][1..] && b[1..][..k - 1] == b[..k][1..];
        assert DiffersAt(a[1..], b[1..], k - 1);
      }
    } else {
      forall k: nat ensures !DiffersAt(a, b, k) {
        if 0 < k <= |a| && k < |b| {
          assert a[..k][0] == a[0] && b[..k][0] == b[0];
        }
      }
    }
  }

  ghost predicate Ascending(caps: seq<string>) {
    forall i | 0 < i < |caps| :: !Less(caps[i], caps[i - 1])
  }

  ghost predicate Rising(caps: seq<string>) {
    forall i | 0 < i < |caps| :: Less(caps[i - 1], caps[i])
  }

  lemma {:induction false} InsertAscends(s: string, caps: seq<string>)
    requires Ascending(caps)
    ensures Ascending(Insert(s, caps))
    ensures Insert(s, caps)[0] == s || (caps != [] && Insert(s, caps)[0] == caps[0])
  {
    if caps != [] && Less(caps[0], s) {
      assert Ascending(caps[1..]) by {
        forall i | 0 < i < |caps| - 1 ensures !Less(caps[1..][i], caps[1..][i - 1]) {
          assert caps[1..][i] == caps[i + 1] && caps[1..][i - 1] == caps[i];
        }
      }
      InsertAscends(s, caps[1..]);
      LessIsTotal(caps[0], s);
    }
  }

  lemma {:induction false} InsertElements(s: string, caps: seq<string>, x: string)
    ensures x in Insert(s, caps) <==> x == s || x in caps
  {
    if caps != [] && Less(caps[0], s) {
      InsertElements(s, caps[1..], x);
    }
  }

  lemma {:induction false} SortSorts(caps: seq<string>)
    ensures Ascending(Sort(caps))
  {
    if caps != [] {
      SortSorts(caps[1..]);
      InsertAscends(caps[0], Sort(caps[1..]));
    }
  }

  lemma {:induction false} SortElements(caps: seq<string>, x: string)
    ensures x in Sort(caps) <==> x in caps
  {
    if caps != [] {
      SortElements(caps[1..], x);
      InsertElements(caps[0], Sort(caps[1..]), x);
    }
  }

  lemma {:induction false} DedupRises(caps: seq<string>)
    requires Ascending(caps)
    ensures Rising(Dedup(caps))
    ensures caps != [] ==> Dedup(caps) != [] && Dedup(caps)[0] == caps[0]
  {
    if |caps| > 1 {
      var rest := caps[1..];
      assert Ascending(rest) by {
        forall i | 0 < i < |rest| ensures !Less(rest[i], rest[i - 1]) {
          assert rest[i] == caps[i + 1] && rest[i - 1] == caps[i];
        }
      }
      DedupRises(rest);
      LessIsTotal(caps[0], caps[1]);
    }
  }

  lemma {:induction false} DedupElements(caps: seq<string>, x: string)
    ensures x in Dedup(caps) <==> x in caps
  {
    if |caps| > 1 {
      DedupElements(caps[1..], x);
    }
  }

  lemma {:induction false} KeptElements(raw: seq<string>, x: string)
    ensures x in Kept(raw) <==> x in Entries(raw)
  {
    if raw != [] {
      KeptElements(raw[1..], x);
      assert raw == [raw[0]] + raw[1..];
    }
  }

  lemma {:induction false} RisingFromHead(caps: seq<string>, i: nat)
    requires Rising(caps) && 0 < i < |caps|
    ensures Less(caps[0], caps[i])
  {
    if i > 1 {
      RisingFromHead(caps, i - 1);
      LessChains(caps[0], caps[i - 1], caps[i]);
    }
  }

  /** A rising list is determined by its elements. */
  lemma {:induction false} RisingIsUnique(a: seq<string>, b: seq<string>)
    requires Rising(a) && Rising(b) && forall x :: x in a <==> x in b
    ensures a == b
  {
    assert b == [] || b[0] in b;
    if a != [] {
      assert a[0] in b;
      assert b[0] in a;
      HeadsAgree(a, b);
      TailElements(a);
      TailElements(b);
      RisingIsUnique(a[1..], b[1..]);
      assert a == [a[0]] + a[1..] && b == [b[0]] + b[1..];
    }
  }

  lemma HeadsAgree(a: seq<string>, b: seq<string>)
    requires Rising(a) && Rising(b) && a != [] && b != [] && a[0] in b && b[0] in a
    ensures a[0] == b[0]
  {
    var i :| 0 <= i < |b| && b[i] == a[0];
    var j :| 0 <= j < |a| && a[j] == b[0];
    LessIsTotal(a[0], b[0]);
    if i > 0 && j > 0 {
      RisingFromHead(b, i);
      RisingFromHead(a, j);
    }
  }

  lemma TailElements(a: seq<string>)
    requires Rising(a) && a != []
    ensures Rising(a[1..])
    ensures forall x :: x in a[1..] <==> x in a && x != a[0]
  {
    assert a == [a[0]] + a[1..];
    forall i | 0 < i < |a| ensures a[i] != a[0] {
      RisingFromHead(a, i);
      LessIsTotal(a[0], a[i]);
    }
  }

  lemma ParseElements(raw: seq<string>)
    ensures Rising(Parse(raw))
    ensures forall x :: x in Parse(raw) <==> x in Entries(raw)
  {
    SortSorts(Kept(raw));
    DedupRises(Sort(Kept(raw)));
    forall x ensures x in Parse(raw) <==> x in Entries(raw) {
      DedupElements(Sort(Kept(raw)), x);
      SortElements(Kept(raw), x);
      KeptElements(raw, x);
    }
  }

  /** Two raw lists parse alike exactly when they advertise the same capabilities. */
  lemma ParseIsCanonical(one: seq<string>, two: seq<string>)
    ensures Parse(one) == Parse(two) <==> Entries(one) == Entries(two)
  {
    ParseElements(one);
    ParseElements(two);
    if Entries(one) == Entries(two) {
      RisingIsUnique(Parse(one), Parse(two));
    }
  }

  // ---------------------------------------------------------------- negotiation

  datatype ProfileCapabilities = ProfileCapabilities(version: nat, supportsResume: bool)

  datatype NegotiatedProfile = NegotiatedProfile(
    profileId: string,
    capabilities: ProfileCapabilities,
    negotiationId: string,
    validUntil: Time)
  {
    predicate IsValid(now: Time) {
      now < validUntil
    }

    predicate IsExpired(now: Time) {
      !IsValid(now)
    }
  }

  datatype AnpError =
    | InvalidPayload(detail: string)
    | NoCommonProfile(peerCapabilities: seq<string>, offered: seq<string>)

  predicate HasResume(caps: seq<string>, profile: string) {
    exists cap :: cap in caps && (cap == profile + "#resume" || cap == profile + ".resume")
  }

  function FirstAdvertised(profiles: seq<string>, caps: seq<string>): Option<string> {
    if profiles == [] then None
    else if profiles[0] in caps then Some(profiles[0])
    else FirstAdvertised(profiles[1..], caps)
  }

  function ProfileSelection(profiles: seq<string>, caps: seq<string>)
    : Result<Option<(string, ProfileCapabilities)>, AnpError>
  {
    if profiles == [] then Err(InvalidPayload("empty profile offer"))
    else
      var first := FirstAdvertised(profiles, caps);
      if first.None? then Ok(None)
      else Ok(Some((first.value, ProfileCapabilities(1, HasResume(caps, first.value)))))
  }

  function Negotiate(profiles: seq<string>, caps: seq<string>, accepts: bool, negotiationId: string, now: Time,
                     validity: int): Result<NegotiatedProfile, AnpError>
  {
    if !accepts then Err(NoCommonProfile(caps, profiles))
    else
      var selected := ProfileSelection(profiles, caps);
      if selected.Err? then Err(selected.error)
      else if selected.value.None? then Err(NoCommonProfile(caps, profiles))
      else
        var (profile, granted) := selected.value.value;
        Ok(NegotiatedProfile(profile, granted, negotiationId, now + validity))
  }

  /** `i` is the best offer the peer advertises. */
  ghost predicate Best(profiles: seq<string>, advertised: set<string>, i: nat) {
    && i < |profiles| && profiles[i] in advertised
    && forall j | 0 <= j < i :: profiles[j] !in advertised
  }

  lemma {:induction false} FirstIsBest(profiles: seq<string>, raw: seq<string>)
    ensures var first := FirstAdvertised(profiles, Parse(raw));
            if first.None? then forall p | p in profiles :: p !in Entries(raw)
            else exists i: nat :: Best(profiles, Entries(raw), i) && profiles[i] == first.value
  {
    ParseElements(raw);
    if profiles != [] {
      assert profiles == [profiles[0]] + profiles[1..];
      if profiles[0] in Parse(raw) {
        assert Best(profiles, Entries(raw), 0);
      } else {
        FirstIsBest(profiles[1..], raw);
        if FirstAdvertised(profiles[1..], Parse(raw)).Some? {
          var i: nat :| Best(profiles[1..], Entries(raw), i) &&
                        profiles[1..][i] == FirstAdvertised(profiles[1..], Parse(raw)).value;
          assert profiles[i + 1] == profiles[1..][i];
          forall j | 0 <= j < i + 1 ensures profiles[j] !in Entries(raw) {
            if j > 0 {
              assert profiles[j] == profiles[1..][j - 1];
            }
          }
          assert Best(profiles, Entries(raw), i + 1);
        }
      }
    }
  }

  lemma ResumeIsAdvertised(raw: seq<string>, profile: string)
    ensures HasResume(Parse(raw), profile) <==>
            profile + "#resume" in Entries(raw) || profile + ".resume" in Entries(raw)
  {
    ParseElements(raw);
  }

  /**
   A profile is agreed exactly when the peer accepts and advertises an offered one; it
   is then the first such offer, with resume exactly when one of its two markers is
   advertised, and it has expired at an instant exactly when its validity has passed by then.
   */
  lemma NegotiationPicksTheBest(profiles: seq<string>, raw: seq<string>, accepts: bool, negotiationId: string,
                                now: Time, validity: int)
    ensures var r := Negotiate(profiles, Parse(raw), accepts, negotiationId, now, validity);
            && (r.Ok? <==> accepts && exists i: nat :: Best(profiles, Entries(raw), i))
            && (r.Err? ==>
                  r.error == if accepts && profiles == [] then InvalidPayload("empty profile offer")
                             else NoCommonProfile(Parse(raw), profiles))
            && (r.Ok? ==>
                  var p := r.value.profileId;
                  && (exists i: nat :: Best(profiles, Entries(raw), i) && profiles[i] == p)
                  && r.value.negotiationId == negotiationId && r.value.capabilities.version == 1
                  && (r.value.capabilities.supportsResume <==>
                        p + "#resume" in Entries(raw) || p + ".resume" in Entries(raw))
                  && (forall later :: r.value.IsExpired(later) <==> later - now >= validity))
  {
    FirstIsBest(profiles, raw);
    var first := FirstAdvertised(profiles, Parse(raw));
    if first.Some? {
      ResumeIsAdvertised(raw, first.value);
    } else {
      forall i: nat | i < |profiles| ensures profiles[i] !in Entries(raw) {
        assert profiles[i] in profiles;
      }
    }
  }

  /** Order, repeats, padding and blanks in what the peer sends make no difference, not even to the error. */
  lemma NegotiationIgnoresOrder(profiles: seq<string>, one: seq<string>, two: seq<string>, accepts: bool,
                                negotiationId: string, now: Time, validity: int)
    requires Entries(one) == Entries(two)
    ensures Negotiate(profiles, Parse(one), accepts, negotiationId, now, validity) ==
            Negotiate(profiles, Parse(two), accepts, negotiationId, now, validity)
  {
    ParseIsCanonical(one, two);
  }

  // ---------------------------------------------------------------- connection states

  datatype ClientState =
    | Disconnected | Connecting | IdentityVerified | Negotiating | MessagingOnly | TaskProfileReady | FailedState
  {
    predicate AllowsTaskCommands() {
      TaskProfileReady?
    }

    function Name(): string {
      match this
      case Disconnected => "Disconnected"
      case Connecting => "Connecting"
      case IdentityVerified => "IdentityVerified"
      case Negotiating => "Negotiating"
      case MessagingOnly => "MessagingOnly"
      case TaskProfileReady => "TaskProfileReady"
      case FailedState => "Failed"
    }
  }

  predicate LegalMove(before: ClientState, next: ClientState) {
    match before
    case Disconnected => next.Connecting?
    case Connecting => next.IdentityVerified? || next.FailedState?
    case IdentityVerified => next.Negotiating? || next.MessagingOnly? || next.FailedState?
    case Negotiating => next.TaskProfileReady? || next.MessagingOnly? || next.FailedState?
    case TaskProfileReady => next.Connecting? || next.MessagingOnly? || next.FailedState?
    case MessagingOnly => next.Connecting? || next.FailedState?
    case FailedState => next.Disconnected?
  }

  function Transition(before: ClientState, next: ClientState): Result<ClientState, string> {
    if LegalMove(before, next) then Ok(next)
    else Err("illegal ANP state transition " + before.Name() + " -> " + next.Name())
  }

  /** The states a client passes through, each reached by a transition that succeeded. */
  ghost predicate History(path: seq<ClientState>) {
    && path != [] && path[0] == Disconnected
    && forall i | 0 < i < |path| :: Transition(path[i - 1], path[i]) == Ok(path[i])
  }

  /** Whenever task commands are allowed, the four steps before went through identity and negotiation. */
  lemma ReadyOnlyByNegotiation(path: seq<ClientState>, i: nat)
    requires History(path) && i < |path| && path[i].AllowsTaskCommands()
    ensures i >= 4 && path[i - 3..i + 1] == [Connecting, IdentityVerified, Negotiating, TaskProfileReady]
  {
    assert i > 0 && path[i - 1] == Negotiating;
    assert i > 1 && path[i - 2] == IdentityVerified;
    assert i > 2 && path[i - 3] == Connecting;
    assert i > 3;
  }

  /** Between two visits of the ready state everything is negotiated again. */
  lemma ReadyAgainOnlyByNegotiation(path: seq<ClientState>, i: nat, j: nat)
    requires History(path) && i < j < |path| && path[i].AllowsTaskCommands() && path[j].AllowsTaskCommands()
    ensures i + 4 <= j
  {
    ReadyOnlyByNegotiation(path, j);
    assert path[j - 1] == path[j - 3..j + 1][2] && path[j - 2] == path[j - 3..j + 1][1] &&
           path[j - 3] == path[j - 3..j + 1][0];
  }

  const MOVES := {
    (Disconnected, Connecting), (Connecting, IdentityVerified), (Connecting, FailedState),
    (IdentityVerified, Negotiating), (IdentityVerified, MessagingOnly), (IdentityVerified, FailedState),
    (Negotiating, TaskProfileReady), (Negotiating, MessagingOnly), (Negotiating, FailedState),
    (TaskProfileReady, Connecting), (TaskProfileReady, MessagingOnly), (TaskProfileReady, FailedState),
    (MessagingOnly, Connecting), (MessagingOnly, FailedState), (FailedState, Disconnected)}

  /** Exactly the listed moves succeed; any other names both states. */
  lemma MovesSucceedExactly(before: ClientState, next: ClientState)
    ensures Transition(before, next) ==
            if (before, next) in MOVES then Ok(next)
            else Err("illegal ANP state transition " + before.Name() + " -> " + next.Name())
  {
  }

  ghost predicate Path(path: seq<ClientState>, from: ClientState, to: ClientState) {
    && path != [] && path[0] == from && path[|path| - 1] == to
    && forall i | 0 < i < |path| :: Transition(path[i - 1], path[i]) == Ok(path[i])
  }

  /** From every state task commands can be reached again, in at most five moves. */
  lemma ReadyIsReachable(from: ClientState) returns (path: seq<ClientState>)
    ensures Path(path, from, TaskProfileReady) && |path| <= 6
  {
    var rest := [Connecting, IdentityVerified, Negotiating, TaskProfileReady];
    path := match from
      case FailedState => [FailedState, Disconnected] + rest
      case Connecting => rest
      case IdentityVerified => rest[1..]
      case Negotiating => rest[2..]
      case TaskProfileReady => rest[3..]
      case _ => [from] + rest;
  }
}
