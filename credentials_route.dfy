/** `GET` and `POST /api/credentials`: reading and saving the signed-in
    user's row of `user_credentials`. `POST` requires both tokens, then
    updates the user's row when the lookup finds exactly one, and inserts a
    new row otherwise.

    A body field can be missing, `null`, or a string. The client library
    serialises the update with `JSON.stringify`, which drops missing fields,
    so a missing field keeps its column on update; on insert it stays
    empty. */
module CredentialsRoute {
  import opened Common
  import opened Store

  datatype Field = Absent | Null | Value(text: string)

  /** The seven credential fields of the request body. */
  datatype Body = Body(
    githubToken: Field,
    githubUsername: Field,
    vercelToken: Field,
    vercelTeamId: Field,
    supabaseUrl: Field,
    supabaseAnonKey: Field,
    supabaseProjectRef: Field)

  datatype ReplyBody = ErrorBody(error: string) | RowBody(row: CredentialRow) | EmptyObject | Saved

  datatype Reply = Reply(status: int, body: ReplyBody)

  const TokensRequiredMessage: string := "GitHub Token 和 Vercel Token 是必填项"

  predicate FieldTruthy(f: Field)
  {
    f.Value? && f.text != ""
  }

  /** The column after an update with this field. */
  function Overwrite(f: Field, current: Option<string>): (r: Option<string>)
    ensures f.Absent? ==> r == current
    ensures f.Null? ==> r.None?
    ensures f.Value? ==> r == Some(f.text)
  {
    match f
    case Absent => current
    case Null => None
    case Value(text) => Some(text)
  }

  /** The column of a row inserted with this field. */
  function Initial(f: Field): (r: Option<string>)
    ensures r.Some? <==> f.Value?
    ensures f.Value? ==> r.value == f.text
  {
    if f.Value? then Some(f.text) else None
  }

  function Updated(c: Credentials, b: Body): Credentials
  {
    Credentials(Overwrite(b.githubToken, c.githubToken), Overwrite(b.githubUsername, c.githubUsername),
                Overwrite(b.vercelToken, c.vercelToken), Overwrite(b.vercelTeamId, c.vercelTeamId),
                Overwrite(b.supabaseUrl, c.supabaseUrl), Overwrite(b.supabaseAnonKey, c.supabaseAnonKey),
                Overwrite(b.supabaseProjectRef, c.supabaseProjectRef))
  }

  function Inserted(b: Body): Credentials
  {
    Credentials(Initial(b.githubToken), Initial(b.githubUsername), Initial(b.vercelToken), Initial(b.vercelTeamId),
                Initial(b.supabaseUrl), Initial(b.supabaseAnonKey), Initial(b.supabaseProjectRef))
  }

  /** `update({...fields, updated_at: now}).eq('user_id', userId)`: every row
      of the user is rewritten, the others are kept, the order is kept. */
  function UpdateRows(rows: seq<CredentialRow>, userId: string, b: Body, now: string): (r: seq<CredentialRow>)
    ensures |r| == |rows|
    ensures forall k :: 0 <= k < |rows| ==>
              r[k] == if rows[k].userId == userId then CredentialRow(userId, Updated(rows[k].fields, b), Some(now))
                      else rows[k]
    decreases |rows|
  {
    if |rows| == 0 then []
    else
      var head := if rows[0].userId == userId then CredentialRow(userId, Updated(rows[0].fields, b), Some(now))
                  else rows[0];
      [head] + UpdateRows(rows[1..], userId, b, now)
  }

  /** `POST` on the table: update the user's row when the lookup finds
      exactly one, insert a new one otherwise. */
  function Save(rows: seq<CredentialRow>, userId: string, b: Body, now: string): seq<CredentialRow>
  {
    if SingleRow(rows, userId).Some? then UpdateRows(rows, userId, b, now)
    else rows + [CredentialRow(userId, Inserted(b), None)]
  }

  /** `POST /api/credentials`: 401 without a user, 500 when the body cannot
      be read, 400 when a token is missing, 500 with the message of a failed
      write (which changes nothing), `{success: true}` otherwise. */
  method HandlePost(db: Database, user: Option<string>, body: Result<Body, Error>, now: string, writeError: Option<Error>)
    returns (reply: Reply)
    modifies db`credentials
    ensures user.None? ==> reply == Reply(401, ErrorBody("Unauthorized")) && db.credentials == old(db.credentials)
    ensures user.Some? && body.Failure? ==>
              reply == Reply(500, ErrorBody("Internal server error")) && db.credentials == old(db.credentials)
    ensures user.Some? && body.Success? && !(FieldTruthy(body.value.githubToken) && FieldTruthy(body.value.vercelToken)) ==>
              reply == Reply(400, ErrorBody(TokensRequiredMessage)) && db.credentials == old(db.credentials)
    ensures user.Some? && body.Success? && FieldTruthy(body.value.githubToken) && FieldTruthy(body.value.vercelToken) ==>
              if writeError.Some? then
                reply == Reply(500, ErrorBody(writeError.value.message)) && db.credentials == old(db.credentials)
              else
                reply == Reply(200, Saved) && db.credentials == Save(old(db.credentials), user.value, body.value, now)
  {
    if user.None? {
      return Reply(401, ErrorBody("Unauthorized"));
    }
    if body.Failure? {
      return Reply(500, ErrorBody("Internal server error"));
    }
    var b := body.value;
    if !FieldTruthy(b.githubToken) || !FieldTruthy(b.vercelToken) {
      return Reply(400, ErrorBody(TokensRequiredMessage));
    }
    var existing := SingleRow(db.credentials, user.value);
    if writeError.Some? {
      return Reply(500, ErrorBody(writeError.value.message));
    }
    if existing.Some? {
      db.credentials := UpdateRows(db.credentials, user.value, b, now);
    } else {
      db.credentials := db.credentials + [CredentialRow(user.value, Inserted(b), None)];
    }
    reply := Reply(200, Saved);
  }

  /** `GET /api/credentials`: the user's row when exactly one exists, `{}`
      when the lookup reports no single row (`PGRST116`), the message of any
      other read error with 500. */
  function Get(rows: seq<CredentialRow>, user: Option<string>, readError: Option<Error>): (r: Reply)
    ensures user.None? ==> r == Reply(401, ErrorBody("Unauthorized"))
    ensures user.Some? && readError.Some? ==> r == Reply(500, ErrorBody(readError.value.message))
    ensures user.Some? && readError.None? ==>
              r.status == 200 && (r.body.RowBody? <==> |RowsOf(rows, user.value)| == 1) &&
              (r.body.RowBody? ==> r.body.row in rows && r.body.row.userId == user.value) &&
              (!r.body.RowBody? ==> r.body == EmptyObject)
  {
    if user.None? then Reply(401, ErrorBody("Unauthorized"))
    else if readError.Some? then Reply(500, ErrorBody(readError.value.message))
    else
      match SingleRow(rows, user.value)
      case Some(row) => Reply(200, RowBody(row))
      case None => Reply(200, EmptyObject)
  }

  /** At most one row per user. */
  predicate AtMostOnePerUser(rows: seq<CredentialRow>)
  {
    forall i, j :: 0 <= i < j < |rows| ==> rows[i].userId != rows[j].userId
  }

  lemma {:induction false} RowsOfAppend(rows: seq<CredentialRow>, row: CredentialRow, userId: string)
    ensures RowsOf(rows + [row], userId) == RowsOf(rows, userId) + (if row.userId == userId then [row] else [])
    decreases |rows|
  {
    if |rows| == 0 {
      assert rows + [row] == [row];
      assert [row][1..] == [];
    } else {
      assert (rows + [row])[0] == rows[0];
      assert (rows + [row])[1..] == rows[1..] + [row];
      RowsOfAppend(rows[1..], row, userId);
    }
  }

  lemma {:induction false} RowsOfUpdateRows(rows: seq<CredentialRow>, userId: string, b: Body, now: string)
    ensures RowsOf(UpdateRows(rows, userId, b, now), userId) == UpdateRows(RowsOf(rows, userId), userId, b, now)
    decreases |rows|
  {
    if |rows| > 0 {
      var r := UpdateRows(rows, userId, b, now);
      assert r[1..] == UpdateRows(rows[1..], userId, b, now);
      RowsOfUpdateRows(rows[1..], userId, b, now);
      if rows[0].userId == userId {
        var u := CredentialRow(userId, Updated(rows[0].fields, b), Some(now));
        assert UpdateRows(RowsOf(rows, userId), userId, b, now)
            == UpdateRows([rows[0]] + RowsOf(rows[1..], userId), userId, b, now);
        assert ([rows[0]] + RowsOf(rows[1..], userId))[1..] == RowsOf(rows[1..], userId);
      }
    }
  }

  /** Saving keeps at most one row per user. */
  lemma SavePreservesAtMostOne(rows: seq<CredentialRow>, userId: string, b: Body, now: string)
    requires AtMostOnePerUser(rows)
    ensures AtMostOnePerUser(Save(rows, userId, b, now))
  {
    if SingleRow(rows, userId).None? {
      var after := rows + [CredentialRow(userId, Inserted(b), None)];
      forall i | 0 <= i < |rows|
        ensures rows[i].userId != userId
      {
        if rows[i].userId == userId {
          assert rows[i] in RowsOf(rows, userId);
          RowsOfSingle(rows, userId, i);
        }
      }
      forall i, j | 0 <= i < j < |after|
        ensures after[i].userId != after[j].userId
      {
        if j < |rows| {
          assert after[i] == rows[i] && after[j] == rows[j];
        }
      }
    }
  }

  /** With at most one row per user, a row of the user makes the lookup
      find exactly that row. */
  lemma {:induction false} RowsOfSingle(rows: seq<CredentialRow>, userId: string, i: int)
    requires AtMostOnePerUser(rows)
    requires 0 <= i < |rows| && rows[i].userId == userId
    ensures RowsOf(rows, userId) == [rows[i]]
    decreases |rows|
  {
    if i == 0 {
      RowsOfNone(rows[1..], userId);
    } else {
      assert rows[0].userId != userId;
      assert AtMostOnePerUser(rows[1..]) by {
        forall a, c | 0 <= a < c < |rows[1..]|
          ensures rows[1..][a].userId != rows[1..][c].userId
        {
          assert rows[1..][a] == rows[a + 1] && rows[1..][c] == rows[c + 1];
        }
      }
      RowsOfSingle(rows[1..], userId, i - 1);
    }
  }

  lemma {:induction false} RowsOfNone(rows: seq<CredentialRow>, userId: string)
    requires forall k :: 0 <= k < |rows| ==> rows[k].userId != userId
    ensures RowsOf(rows, userId) == []
    decreases |rows|
  {
    if |rows| > 0 {
      RowsOfNone(rows[1..], userId);
    }
  }

  /** A successful save is read back: after it the user has exactly one row,
      holding the updated columns of the old row, or the body's fields for a
      new row; the tokens are the ones sent. */
  lemma PostThenGet(rows: seq<CredentialRow>, userId: string, b: Body, now: string)
    requires AtMostOnePerUser(rows)
    ensures var after := Save(rows, userId, b, now);
            var old_ := SingleRow(rows, userId);
            var expected := if old_.Some? then CredentialRow(userId, Updated(old_.value.fields, b), Some(now))
                            else CredentialRow(userId, Inserted(b), None);
            Get(after, Some(userId), None) == Reply(200, RowBody(expected)) &&
            (b.githubToken.Value? ==> expected.fields.githubToken == Some(b.githubToken.text)) &&
            (b.vercelToken.Value? ==> expected.fields.vercelToken == Some(b.vercelToken.text))
  {
    var old_ := SingleRow(rows, userId);
    if old_.Some? {
      RowsOfUpdateRows(rows, userId, b, now);
      assert RowsOf(rows, userId) == [old_.value];
      assert UpdateRows([old_.value], userId, b, now)[0] == CredentialRow(userId, Updated(old_.value.fields, b), Some(now));
    } else {
      RowsOfAppend(rows, CredentialRow(userId, Inserted(b), None), userId);
      if |RowsOf(rows, userId)| > 0 {
        var r := RowsOf(rows, userId)[0];
        assert r in rows;
        var i :| 0 <= i < |rows| && rows[i] == r;
        RowsOfSingle(rows, userId, i);
      }
    }
  }

  /** An update rewrites only the user's rows. */
  lemma {:induction false} OthersUnchanged(rows: seq<CredentialRow>, userId: string, other: string, b: Body, now: string)
    requires other != userId
    ensures RowsOf(UpdateRows(rows, userId, b, now), other) == RowsOf(rows, other)
    decreases |rows|
  {
    if |rows| > 0 {
      var r := UpdateRows(rows, userId, b, now);
      assert r[1..] == UpdateRows(rows[1..], userId, b, now);
      OthersUnchanged(rows[1..], userId, other, b, now);
    }
  }
}
