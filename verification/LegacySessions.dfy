/** `_bound_legacy_sessions`: rows written before families had an absolute end. */
module LegacySessions {
  import opened Prelude
  import opened TokenTypes

  type Rows = map<Hash, RefreshRow>

  // Creation times of the tokens of family `f`.
  function Created(rows: Rows, f: FamilyId): set<real> {
    set h | h in rows && rows[h].family == f :: rows[h].createdAt
  }

  // Family ends recorded by the tokens of family `f`.
  function Ends(rows: Rows, f: FamilyId): set<real> {
    set h | h in rows && rows[h].family == f && rows[h].familyEnd.Some? :: rows[h].familyEnd.value
  }

  // First UPDATE: a missing end is one session lifetime after the family's first token.
  function GiveEnd(rows: Rows, h: Hash): (row: RefreshRow)
    requires h in rows
    ensures row.familyEnd.Some?
  {
    if rows[h].familyEnd.Some? then rows[h]
    else
      assert rows[h].createdAt in Created(rows, rows[h].family);
      rows[h].(familyEnd := Some(MinOf(Created(rows, rows[h].family)) + SESSION_LIFETIME))
  }

  function GiveEnds(rows: Rows): (out: Rows)
    ensures out.Keys == rows.Keys
    ensures forall h :: h in out ==> out[h] == GiveEnd(rows, h)
  {
    map h | h in rows :: GiveEnd(rows, h)
  }

  // Second UPDATE: no refresh token outlives its family.
  function CapRow(row: RefreshRow): RefreshRow {
    if row.familyEnd.Some? then row.(expiresAt := MinReal(row.expiresAt, row.familyEnd.value)) else row
  }

  function CapRows(rows: Rows): (out: Rows)
    ensures out.Keys == rows.Keys
    ensures forall h :: h in out ==> out[h] == CapRow(rows[h])
  {
    map h | h in rows :: CapRow(rows[h])
  }

  // Third UPDATE: an access token stops at its family's earliest recorded end.
  function CapOne(a: Access, rows: Rows): Access {
    if a.family.None? || (forall e :: e in Ends(rows, a.family.value) ==> false) then a
    else a.(expiresAt := MinReal(a.expiresAt, MinOf(Ends(rows, a.family.value))))
  }

  function CapAccess(oauth: map<Hash, Access>, rows: Rows): (out: map<Hash, Access>)
    ensures out.Keys == oauth.Keys
    ensures forall h :: h in out ==> out[h] == CapOne(oauth[h], rows)
  {
    map h | h in oauth :: CapOne(oauth[h], rows)
  }

  function Bounded(db: Db): Db {
    var rows := CapRows(GiveEnds(db.refresh));
    Db(db.named, CapAccess(db.oauth, rows), rows)
  }

  // What the UPDATEs leave of the refresh rows, whatever the file held: every row has
  // an end that bounds it, kept when it had one, and otherwise no later than a session
  // lifetime after the creation of any token of the family.
  lemma BoundedRefresh(db: Db, h: Hash)
    requires h in db.refresh
    ensures h in Bounded(db).refresh
    ensures var old_, new_ := db.refresh[h], Bounded(db).refresh[h];
            && new_.familyEnd.Some?
            && new_.expiresAt <= new_.familyEnd.value
            && new_.expiresAt <= old_.expiresAt
            && (new_.expiresAt == old_.expiresAt || new_.expiresAt == new_.familyEnd.value)
            && (old_.familyEnd.Some? ==> new_.familyEnd == old_.familyEnd)
            && new_ == old_.(expiresAt := new_.expiresAt, familyEnd := new_.familyEnd)
    ensures db.refresh[h].familyEnd.None? ==>
              && (forall g :: g in db.refresh && db.refresh[g].family == db.refresh[h].family ==>
                    Bounded(db).refresh[h].familyEnd.value <= db.refresh[g].createdAt + SESSION_LIFETIME)
              && (exists g :: g in db.refresh && db.refresh[g].family == db.refresh[h].family &&
                    Bounded(db).refresh[h].familyEnd.value == db.refresh[g].createdAt + SESSION_LIFETIME)
  {
    var rows, f := db.refresh, db.refresh[h].family;
    if rows[h].familyEnd.None? {
      assert rows[h].createdAt in Created(rows, f);
      var m := MinOf(Created(rows, f));
      forall g | g in rows && rows[g].family == f
        ensures m <= rows[g].createdAt
      {
        assert rows[g].createdAt in Created(rows, f);
      }
      var g :| g in rows && rows[g].family == f && rows[g].createdAt == m;
      assert Bounded(db).refresh[h].familyEnd.value == rows[g].createdAt + SESSION_LIFETIME;
    }
  }

  // Rows of one family that all lacked an end get the same one.
  lemma BoundedFamilyAgrees(db: Db, g: Hash, h: Hash)
    requires g in db.refresh && h in db.refresh && db.refresh[g].family == db.refresh[h].family
    requires db.refresh[g].familyEnd.None? && db.refresh[h].familyEnd.None?
    ensures Bounded(db).refresh[g].familyEnd == Bounded(db).refresh[h].familyEnd
  {
    assert db.refresh[g].createdAt in Created(db.refresh, db.refresh[g].family);
  }

  // An access token never gains time, and stops exactly at the earliest end of its
  // family when the family has refresh tokens; without any it is left alone.
  lemma BoundedAccess(db: Db, h: Hash)
    requires h in db.oauth
    ensures h in Bounded(db).oauth
    ensures var a, b, rows := db.oauth[h], Bounded(db).oauth[h], Bounded(db).refresh;
            && b == a.(expiresAt := b.expiresAt)
            && b.expiresAt <= a.expiresAt
            && (forall g :: g in rows && a.family == Some(rows[g].family) ==>
                  rows[g].familyEnd.Some? && b.expiresAt <= rows[g].familyEnd.value)
            && (b.expiresAt == a.expiresAt ||
                exists g :: g in rows && a.family == Some(rows[g].family) && rows[g].familyEnd == Some(b.expiresAt))
  {
    var a, rows := db.oauth[h], Bounded(db).refresh;
    if a.family.Some? {
      var ends := Ends(rows, a.family.value);
      forall g | g in rows && rows[g].family == a.family.value
        ensures rows[g].familyEnd.Some? && rows[g].familyEnd.value in ends
      {
        assert rows[g].familyEnd.Some?;
      }
      if e :| e in ends {
        var m := MinOf(ends);
        var g :| g in rows && rows[g].family == a.family.value && rows[g].familyEnd == Some(m);
      }
    }
  }

  // Every row and token is within its bound, so the UPDATEs have nothing to do.
  ghost predicate Settled(db: Db) {
    && (forall h :: h in db.refresh ==>
          db.refresh[h].familyEnd.Some? && db.refresh[h].expiresAt <= db.refresh[h].familyEnd.value)
    && (forall h, g :: h in db.oauth && g in db.refresh && db.oauth[h].family == Some(db.refresh[g].family) ==>
          db.refresh[g].familyEnd.Some? && db.oauth[h].expiresAt <= db.refresh[g].familyEnd.value)
  }

  lemma SettledFixed(db: Db)
    requires Settled(db)
    ensures Bounded(db) == db
  {
    var rows := CapRows(GiveEnds(db.refresh));
    assert rows == db.refresh;
    forall h | h in db.oauth
      ensures CapOne(db.oauth[h], rows) == db.oauth[h]
    {
      var a := db.oauth[h];
      if a.family.Some? && exists e :: e in Ends(rows, a.family.value) {
        var m := MinOf(Ends(rows, a.family.value));
        var g :| g in rows && rows[g].family == a.family.value && rows[g].familyEnd == Some(m);
      }
    }
    assert CapAccess(db.oauth, rows) == db.oauth;
  }

  // Running the migration again changes nothing.
  lemma BoundedIdempotent(db: Db)
    ensures Settled(Bounded(db))
    ensures Bounded(Bounded(db)) == Bounded(db)
  {
    var out := Bounded(db);
    forall h | h in out.refresh
      ensures out.refresh[h].familyEnd.Some? && out.refresh[h].expiresAt <= out.refresh[h].familyEnd.value
    {
      BoundedRefresh(db, h);
    }
    forall h, g | h in out.oauth && g in out.refresh && out.oauth[h].family == Some(out.refresh[g].family)
      ensures out.refresh[g].familyEnd.Some? && out.oauth[h].expiresAt <= out.refresh[g].familyEnd.value
    {
      BoundedAccess(db, h);
    }
    SettledFixed(out);
  }
}
