/** The two schemas of the repository, as environments, and where they make a difference. */
module Schemas {
  import opened Outcomes
  import opened Database
  import opened Success

  /** `migrations/001_init.sql`: ids and texts are VARCHAR(255), visibilities VARCHAR(50). */
  function MigrationSchema(time: string -> Option<int>, avatarUrl: (string, string) -> string,
                           allows: (string, string) -> bool): Environment
  {
    Environment(
      (s: string) => if |s| <= 255 then Id(s) else Unmatched,
      (column: Column, s: string) => |s| <= (if column == Visibility then 50 else 255),
      time, avatarUrl, allows)
  }

  /** `docker/init.sql`: ids are UUIDs, names VARCHAR(100), usernames VARCHAR(64), visibilities an enumeration. */
  function DockerSchema(uuid: string -> Option<string>, time: string -> Option<int>,
                        avatarUrl: (string, string) -> string, allows: (string, string) -> bool): Environment
  {
    Environment(
      (s: string) =>
        match uuid(s)
        case Some(key) => Id(key)
        case None => Rejected("invalid input syntax for type uuid"),
      (column: Column, s: string) =>
        match column
        case Username => |s| <= 64
        case Visibility => s in ["everyone", "contacts", "nobody"]
        case _ => |s| <= 100,
      time, avatarUrl, allows)
  }

  /** Reading a stored id back denotes it: of any text, and of UUIDs if their parsing is idempotent. */
  lemma SchemasAreCanonical(uuid: string -> Option<string>, time: string -> Option<int>,
                            avatarUrl: (string, string) -> string, allows: (string, string) -> bool)
    ensures CanonicalIds(MigrationSchema(time, avatarUrl, allows))
    ensures (forall s :: uuid(s).Some? ==> uuid(uuid(s).value) == uuid(s)) ==>
      CanonicalIds(DockerSchema(uuid, time, avatarUrl, allows))
  {
    var docker := DockerSchema(uuid, time, avatarUrl, allows);
    if forall s :: uuid(s).Some? ==> uuid(uuid(s).value) == uuid(s) {
      forall s | docker.id(s).Id? ensures docker.id(docker.id(s).key) == docker.id(s) {
        assert uuid(s).Some?;
      }
    }
  }

  /**
   A global notification update writes the chat id "". With text ids it succeeds exactly for the
   users who have a profile; with UUIDs, of which "" is none, it never does.
   */
  lemma GlobalUpdateBySchema(uuid: string -> Option<string>, time: string -> Option<int>,
                             avatarUrl: (string, string) -> string, allows: (string, string) -> bool,
                             t: Tables, userId: string, muted: bool, until: Option<int>)
    ensures
      var migration := MigrationSchema(time, avatarUrl, allows);
      Database.Valid(migration, t) ==>
        (Exec(migration, t, PutNotification(userId, "", muted, until)).Ok?
         <==> |userId| <= 255 && userId in t.profiles)
    ensures
      uuid("").None? ==>
        Exec(DockerSchema(uuid, time, avatarUrl, allows), t, PutNotification(userId, "", muted, until)).Throw?
  {
    var migration := MigrationSchema(time, avatarUrl, allows);
    hide Database.Valid;
    if Database.Valid(migration, t) {
      ExecSucceedsIff(migration, t, PutNotification(userId, "", muted, until));
    }
  }

  /** The two schemas differ in these texts, and every text that fits the Docker schema fits the other. */
  lemma DockerIsStricter(uuid: string -> Option<string>, time: string -> Option<int>,
                         avatarUrl: (string, string) -> string, allows: (string, string) -> bool,
                         column: Column, s: string)
    ensures
      var docker, migration := DockerSchema(uuid, time, avatarUrl, allows), MigrationSchema(time, avatarUrl, allows);
      && (docker.fits(column, s) ==> migration.fits(column, s))
      && (migration.fits(column, s) && !docker.fits(column, s)
          <==> match column
               case Username => 64 < |s| <= 255
               case Visibility => |s| <= 50 && s !in ["everyone", "contacts", "nobody"]
               case _ => 100 < |s| <= 255)
  {
    assert |"everyone"| == 8 && |"contacts"| == 8 && |"nobody"| == 6;
  }
}
