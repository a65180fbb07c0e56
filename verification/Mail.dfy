/** Mailboxes: letters sent to lists of users, kept until the user acknowledges their ids. */
module Mail {
  import opened Mongo

  type UserId = string

  datatype Letter = Letter(id: string, kind: int, data: string, ts: int)

  datatype Event = Send(users: seq<UserId>, letter: Letter) | Ack(user: UserId, ids: seq<string>)

  /** bson.IsObjectIdHex */
  predicate IsHexId(s: string) {
    |s| == 24 && forall i :: 0 <= i < |s| ==> ('0' <= s[i] <= '9' || 'a' <= s[i] <= 'f' || 'A' <= s[i] <= 'F')
  }

  predicate AllHex(ids: seq<string>) {
    forall i :: 0 <= i < |ids| ==> IsHexId(ids[i])
  }

  function Box(mail: map<UserId, seq<Letter>>, u: UserId): seq<Letter> {
    if u in mail then mail[u] else []
  }

  /** The bulk upsert of `$push`: one copy for each time the user is listed. */
  function PushEach(mail: map<UserId, seq<Letter>>, users: seq<UserId>, letter: Letter): map<UserId, seq<Letter>> {
    if users == [] then mail
    else
      var u := users[|users| - 1];
      var r := PushEach(mail, users[..|users| - 1], letter);
      r[u := Box(r, u) + [letter]]
  }

  /** `$pull` of the letters whose id is listed. */
  function Without(box: seq<Letter>, ids: seq<string>): (r: seq<Letter>)
    ensures forall l :: l in r <==> l in box && l.id !in ids
  {
    if box == [] then []
    else
      var rest := Without(box[..|box| - 1], ids);
      if box[|box| - 1].id in ids then rest else rest + [box[|box| - 1]]
  }

  function Do(mail: map<UserId, seq<Letter>>, e: Event): map<UserId, seq<Letter>> {
    match e
    case Send(users, letter) => PushEach(mail, users, letter)
    case Ack(u, ids) => if AllHex(ids) && u in mail then mail[u := Without(mail[u], ids)] else mail
  }

  function Run(mail: map<UserId, seq<Letter>>, es: seq<Event>): map<UserId, seq<Letter>>
    decreases |es|
  {
    if es == [] then mail else Run(Do(mail, es[0]), es[1..])
  }

  // ---- What a mailbox should hold -------------------------------------------------------

  function Copies(users: seq<UserId>, u: UserId, letter: Letter): seq<Letter> {
    if users == [] then []
    else Copies(users[..|users| - 1], u, letter) + if users[|users| - 1] == u then [letter] else []
  }

  /** One copy for each time the user is listed. */
  lemma {:induction false} CopiesAre(users: seq<UserId>, u: UserId, letter: Letter)
    ensures |Copies(users, u, letter)| == multiset(users)[u]
    ensures forall i :: 0 <= i < |Copies(users, u, letter)| ==> Copies(users, u, letter)[i] == letter
    decreases |users|
  {
    if users != [] {
      CopiesAre(users[..|users| - 1], u, letter);
      assert users == users[..|users| - 1] + [users[|users| - 1]];
    }
  }

  /** Some well-formed ack of `u` among the events lists the id. */
  ghost predicate Acked(es: seq<Event>, u: UserId, id: string) {
    exists j :: 0 <= j < |es| && es[j].Ack? && es[j].user == u && AllHex(es[j].ids) && id in es[j].ids
  }

  /** The letters sent to `u` and not acknowledged later, in the order they were sent. */
  ghost function Expected(es: seq<Event>, u: UserId): seq<Letter>
    decreases |es|
  {
    if es == [] then []
    else
      Sent(es, u) + Expected(es[1..], u)
  }

  /** What the first event sends to `u` for good. */
  ghost function Sent(es: seq<Event>, u: UserId): seq<Letter>
    requires es != []
  {
    if es[0].Send? && !Acked(es[1..], u, es[0].letter.id) then Copies(es[0].users, u, es[0].letter) else []
  }

  ghost function Unacked(box: seq<Letter>, es: seq<Event>, u: UserId): seq<Letter> {
    if box == [] then []
    else
      var rest := Unacked(box[..|box| - 1], es, u);
      if Acked(es, u, box[|box| - 1].id) then rest else rest + [box[|box| - 1]]
  }

  lemma {:induction false} PushedBox(mail: map<UserId, seq<Letter>>, users: seq<UserId>, letter: Letter, u: UserId)
    ensures Box(PushEach(mail, users, letter), u) == Box(mail, u) + Copies(users, u, letter)
    decreases |users|
  {
    if users != [] {
      PushedBox(mail, users[..|users| - 1], letter, u);
    }
  }

  lemma {:induction false} UnackedConcat(a: seq<Letter>, b: seq<Letter>, es: seq<Event>, u: UserId)
    ensures Unacked(a + b, es, u) == Unacked(a, es, u) + Unacked(b, es, u)
    decreases |b|
  {
    if b == [] {
      assert a + b == a;
    } else {
      assert (a + b)[..|a + b| - 1] == a + b[..|b| - 1];
      UnackedConcat(a, b[..|b| - 1], es, u);
    }
  }

  lemma {:induction false} UnackedCopies(users: seq<UserId>, letter: Letter, es: seq<Event>, u: UserId)
    ensures Unacked(Copies(users, u, letter), es, u) ==
            if Acked(es, u, letter.id) then [] else Copies(users, u, letter)
    decreases |users|
  {
    if users != [] {
      var rest := users[..|users| - 1];
      UnackedCopies(rest, letter, es, u);
      var last := if users[|users| - 1] == u then [letter] else [];
      UnackedConcat(Copies(rest, u, letter), last, es, u);
      assert last != [] ==> last[..0] == [];
    }
  }

  lemma AckedLater(es: seq<Event>, u: UserId, id: string)
    requires es != []
    ensures Acked(es, u, id) <==>
            (es[0].Ack? && es[0].user == u && AllHex(es[0].ids) && id in es[0].ids) || Acked(es[1..], u, id)
  {
  }

  /** The first event is an ack of `u`: what it removes is what it acknowledges. */
  lemma {:induction false} UnackedStep(box: seq<Letter>, es: seq<Event>, u: UserId)
    requires es != []
    ensures Unacked(box, es, u) ==
            Unacked(
              if es[0].Ack? && es[0].user == u && AllHex(es[0].ids) then Without(box, es[0].ids) else box, es[1..], u)
    decreases |box|
  {
    if box != [] {
      var front, last := box[..|box| - 1], box[|box| - 1];
      UnackedStep(front, es, u);
      AckedLater(es, u, last.id);
      if es[0].Ack? && es[0].user == u && AllHex(es[0].ids) && last.id !in es[0].ids {
        var kept := Without(front, es[0].ids);
        assert (kept + [last])[..|kept|] == kept;
      }
    }
  }

  lemma BoxStep(mail: map<UserId, seq<Letter>>, es: seq<Event>, u: UserId)
    requires es != []
    ensures Unacked(Box(Do(mail, es[0]), u), es[1..], u) == Unacked(Box(mail, u), es, u) + Sent(es, u)
  {
    UnackedStep(Box(mail, u), es, u);
    if es[0].Send? {
      PushedBox(mail, es[0].users, es[0].letter, u);
      UnackedConcat(Box(mail, u), Copies(es[0].users, u, es[0].letter), es[1..], u);
      UnackedCopies(es[0].users, es[0].letter, es[1..], u);
    }
  }

  lemma {:induction false} BoxAfter(mail: map<UserId, seq<Letter>>, es: seq<Event>, u: UserId)
    ensures Box(Run(mail, es), u) == Unacked(Box(mail, u), es, u) + Expected(es, u)
    decreases |es|
  {
    if es == [] {
      UnackedNothing(Box(mail, u), u);
    } else {
      BoxAfter(Do(mail, es[0]), es[1..], u);
      BoxStep(mail, es, u);
      Associative(Unacked(Box(mail, u), es, u), Sent(es, u), Expected(es[1..], u));
    }
  }

  lemma Associative(a: seq<Letter>, b: seq<Letter>, c: seq<Letter>)
    ensures a + b + c == a + (b + c)
  {
  }

  lemma {:induction false} UnackedNothing(box: seq<Letter>, u: UserId)
    ensures Unacked(box, [], u) == box
    decreases |box|
  {
    if box != [] {
      UnackedNothing(box[..|box| - 1], u);
      assert box == box[..|box| - 1] + [box[|box| - 1]];
    }
  }

  /** After any sequence of sends and acks: a user's letters are exactly those sent to that
      user and not acknowledged later, in send order, as often as the user was listed. */
  lemma MailboxExact(es: seq<Event>, u: UserId)
    ensures Box(Run(map[], es), u) == Expected(es, u)
  {
    BoxAfter(map[], es, u);
  }

  // ---- The functions of the package -----------------------------------------------------

  class Mailboxes {
    var mail: map<UserId, seq<Letter>>

    method SendLetterToMail(users: seq<UserId>, letter: Letter)
      modifies this
      ensures mail == Do(old(mail), Send(users, letter))
    {
      for i := 0 to |users|
        invariant mail == PushEach(old(mail), users[..i], letter)
      {
        assert users[..i + 1][..i] == users[..i];
        mail := mail[users[i] := Box(mail, users[i]) + [letter]];
      }
      assert users[..|users|] == users;
    }

    /** The letters of the user, whatever type was asked for: the code never looks at it. */
    method GetLettersByType(u: UserId, mailType: int) returns (letters: seq<Letter>, ok: bool)
      ensures ok <==> u in mail
      ensures letters == Box(mail, u)
    {
      if u !in mail {
        return [], false;
      }
      letters := [];
      for i := 0 to |mail[u]|
        invariant letters == mail[u][..i]
      {
        letters := letters + [mail[u][i]];
      }
      assert letters == mail[u];
      ok := true;
    }

    /** One malformed id, and nothing is removed. */
    method RemoveLetter(u: UserId, ids: seq<string>) returns (ok: bool)
      modifies this
      ensures mail == Do(old(mail), Ack(u, ids))
      ensures ok <==> AllHex(ids) && u in old(mail)
      ensures !ok ==> mail == old(mail)
      ensures (exists i :: 0 <= i < |ids| && !IsHexId(ids[i])) ==> !ok
      ensures ok ==> forall l :: l in mail[u] <==> l in old(mail)[u] && l.id !in ids
    {
      for i := 0 to |ids|
        invariant forall j :: 0 <= j < i ==> IsHexId(ids[j])
      {
        if !IsHexId(ids[i]) {
          return false;
        }
      }
      if u !in mail {
        return false;
      }
      mail := mail[u := Without(mail[u], ids)];
      return true;
    }
  }
}
