/**
 * The value types shared by the chat session, the partner-response gateway
 * and the header (types.ts).
 */
module Types {

  /** An optional value: the source's `T | null` and `T | undefined`. */
  datatype Option<T> = None | Some(value: T) {
    function GetOr(default: T): T {
      if Some? then value else default
    }
  }

  /** The partner's gender; its string value is what the gateway is told. */
  datatype Gender = Male | Female {
    function Value(): string {
      if Male? then "Erkek" else "Kadın"
    }
  }

  /** Who wrote a message: the `'user' | 'partner'` union. */
  datatype Sender = FromUser | FromPartner {
    function Value(): string {
      if FromUser? then "user" else "partner"
    }
  }

  /** The phase of a session. */
  datatype GameStatus = Selection | Playing | Blocked {
    function Value(): string {
      match this
      case Selection => "selection"
      case Playing => "playing"
      case Blocked => "blocked"
    }
  }

  /**
   * One chat line. The id is a string (the opening line uses a reserved id,
   * the others a clock reading) and the timestamp an abstract clock reading.
   */
  datatype Message = Message(id: string, text: string, sender: Sender, timestamp: int)

  /** The simulated partner chosen on the selection screen. */
  datatype Partner = Partner(name: string, gender: Gender, avatar: string)

  /** The two genders have the two distinct enum values 'Erkek' and 'Kadın'. */
  lemma GenderValues(g: Gender, h: Gender)
    ensures g.Value() == "Erkek" || g.Value() == "Kadın"
    ensures g.Value() == h.Value() <==> g == h
  {
  }

  /** A sender is exactly 'user' or 'partner', and the two are told apart by their value. */
  lemma SenderValues(s: Sender, t: Sender)
    ensures s.Value() == "user" || s.Value() == "partner"
    ensures s.Value() == t.Value() <==> s == t
  {
  }

  /** The three statuses have three distinct enum values. */
  lemma GameStatusValues(s: GameStatus, t: GameStatus)
    ensures s.Value() in {"selection", "playing", "blocked"}
    ensures s.Value() == t.Value() <==> s == t
  {
  }
}
