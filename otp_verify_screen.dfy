/** The login OTP screen: six one-character cells, a resend countdown and the verify step. */
module OtpVerifyScreen {
  import opened Wrappers
  import opened AppContext

  const Cells: nat := 6
  const ResendSeconds: nat := 60
  const EmptyCells: seq<string> := ["", "", "", "", "", ""]

  /** `otp.join('')`. */
  function Join(cells: seq<string>): string {
    if cells == [] then "" else Join(cells[..|cells| - 1]) + cells[|cells| - 1]
  }

  /** With cells of at most one character, the joined code is as long as the cells array
      exactly when no cell is empty. */
  lemma {:induction false} JoinOfShortCells(cells: seq<string>)
    requires forall i :: 0 <= i < |cells| ==> |cells[i]| <= 1
    ensures |Join(cells)| <= |cells|
    ensures |Join(cells)| == |cells| <==> forall i :: 0 <= i < |cells| ==> cells[i] != ""
  {
    if cells != [] {
      var front := cells[..|cells| - 1];
      JoinOfShortCells(front);
      if |Join(cells)| == |cells| {
        forall i | 0 <= i < |cells| ensures cells[i] != "" {
          if i < |cells| - 1 {
            assert front[i] == cells[i];
          }
        }
      }
    }
  }

  /** `value.slice(-1)` when longer than one character, else the value itself. */
  function LastCharacter(value: string): (r: string)
    ensures |r| <= 1
    ensures value != "" ==> r == [value[|value| - 1]]
    ensures value == "" ==> r == ""
  {
    if |value| > 1 then value[|value| - 1..] else value
  }

  /** `+91 ` then the first five characters, a space, and the rest (slices clamp). */
  function MaskedPhone(phone: string): (r: string)
    ensures var k := if |phone| < 5 then |phone| else 5;
      && |r| == |phone| + 5
      && r[..4] == "+91 " && r[4 + k] == ' '
      && r[4..4 + k] + r[5 + k..] == phone
  {
    var k := if |phone| < 5 then |phone| else 5;
    var r := "+91 " + phone[..k] + " " + phone[k..];
    assert r[4..4 + k] == phone[..k] && r[5 + k..] == phone[k..];
    r
  }

  datatype Event = Alert(title: string, message: string) | Verified

  /** The screen's fields. Focus changes are returned as the index of the cell to focus. */
  class OtpEntry {
    var otp: seq<string>
    var countdown: int

    /** Six cells of at most one character and a countdown that is never negative. */
    ghost predicate Valid()
      reads this
    {
      |otp| == Cells && (forall i :: 0 <= i < |otp| ==> |otp[i]| <= 1) && countdown >= 0
    }

    constructor ()
      ensures Valid() && otp == EmptyCells && countdown == ResendSeconds
    {
      otp := EmptyCells;
      countdown := ResendSeconds;
    }

    /** `otp.every(digit => digit !== '')`, the verify button's enabling condition. */
    predicate IsOtpComplete()
      reads this
    {
      forall i :: 0 <= i < |otp| ==> otp[i] != ""
    }

    /** `handleOtpChange(value, index)`: only cell `index` changes, to the last character typed;
        focus moves on to the next cell when something was typed before the last cell. */
    method HandleOtpChange(value: string, index: int) returns (focus: Option<int>)
      requires Valid() && 0 <= index < Cells
      modifies this
      ensures Valid()
      ensures otp == old(otp)[index := LastCharacter(value)]
      ensures countdown == old(countdown)
      ensures focus == if value != "" && index < Cells - 1 then Some(index + 1) else None
    {
      var v := LastCharacter(value);
      otp := otp[index := v];
      focus := if v != "" && index < Cells - 1 then Some(index + 1) else None;
    }

    /** `handleKeyPress`: backspace on an empty cell moves focus back one cell. */
    method HandleKeyPress(key: string, index: int) returns (focus: Option<int>)
      requires Valid() && 0 <= index < Cells
      ensures focus.Some? ==> 0 <= focus.value < Cells && focus.value == index - 1
      ensures focus.Some? <==> key == "Backspace" && otp[index] == "" && index > 0
    {
      focus := if key == "Backspace" && otp[index] == "" && index > 0 then Some(index - 1) else None;
    }

    /** `handleVerify`: an incomplete code is refused with an alert; a complete one logs in
        with the phone behind `+91 ` and reports success. The code itself is not checked. */
    method HandleVerify(store: AppStore, phone: string) returns (events: seq<Event>)
      requires Valid()
      modifies store
      ensures |Join(otp)| != Cells ==>
                events == [Alert("Invalid OTP", "Please enter the complete 6-digit OTP")]
                && store.isAuthenticated == old(store.isAuthenticated) && store.operator == old(store.operator)
      ensures |Join(otp)| == Cells ==>
                events == [Verified] && store.isAuthenticated && store.operator == Some(store.template.(phone := "+91 " + phone))
      ensures store.Valid() == (old(store.Valid()) || |Join(otp)| == Cells)
      ensures store.bookings == old(store.bookings) && store.language == old(store.language)
    {
      if |Join(otp)| != Cells {
        events := [Alert("Invalid OTP", "Please enter the complete 6-digit OTP")];
        return;
      }
      store.Login("+91 " + phone);
      events := [Verified];
    }

    /** The button is enabled exactly when verifying would log in. */
    lemma ButtonMatchesVerify()
      requires Valid()
      ensures IsOtpComplete() <==> |Join(otp)| == Cells
    {
      JoinOfShortCells(otp);
    }

    /** `handleResend`: the countdown restarts and every cell is cleared. */
    method HandleResend() returns (events: seq<Event>)
      modifies this
      ensures Valid() && countdown == ResendSeconds && otp == EmptyCells
      ensures events == [Alert("OTP Sent", "A new OTP has been sent to your phone")]
    {
      countdown := ResendSeconds;
      otp := EmptyCells;
      events := [Alert("OTP Sent", "A new OTP has been sent to your phone")];
    }

    /** One second of the countdown effect: down by one while positive, never below zero. */
    method Tick()
      requires Valid()
      modifies this
      ensures Valid() && otp == old(otp)
      ensures countdown == if old(countdown) > 0 then old(countdown) - 1 else 0
    {
      if countdown > 0 {
        countdown := countdown - 1;
      }
    }

    /** The resend link replaces the countdown text once the countdown reaches zero. */
    predicate ResendOffered()
      reads this
    {
      !(countdown > 0)
    }

    lemma ResendOnlyAtZero()
      requires Valid()
      ensures ResendOffered() <==> countdown == 0
    {
    }
  }

  /** The countdown effect re-arms its one-second timer until the countdown reaches zero: from a
      fresh 60 it fires exactly sixty times, and then the resend link is offered. */
  method RunCountdown(entry: OtpEntry) returns (ticks: nat)
    requires entry.Valid() && entry.countdown == ResendSeconds
    modifies entry
    ensures entry.Valid() && entry.ResendOffered() && ticks == ResendSeconds
    ensures entry.countdown == 0 && entry.otp == old(entry.otp)
  {
    ticks := 0;
    while !entry.ResendOffered()
      invariant entry.Valid() && entry.countdown == ResendSeconds - ticks
      invariant entry.otp == old(entry.otp)
      decreases entry.countdown
    {
      entry.Tick();
      ticks := ticks + 1;
    }
  }
}
