/**
 * The outside state the writer acts on: the directories and files of the
 * filesystem and the chat notifications dispatched so far, plus the routing
 * target the notification class reports.
 */
module Environment {
  import opened Slack

  /** The observable state: existing directories, file contents by path, dispatched notifications. */
  datatype WorldState = WorldState(
    dirs: set<string>,
    files: map<string, string>,
    sent: seq<Notification>)

  /** PHP `file_exists`: true for a directory and for a regular file alike. */
  predicate Exists(s: WorldState, path: string) {
    path in s.dirs || path in s.files
  }

  /** The current contents of a file; appending to a missing file starts from nothing. */
  function ContentsOf(s: WorldState, path: string): string {
    if path in s.files then s.files[path] else ""
  }

  /** PHP `empty()` on a string: the empty string and "0" count as empty. */
  predicate IsEmptyRoute(route: string) {
    route == "" || route == "0"
  }

  /**
   * The filesystem and the chat sink, updated in place by the three PHP
   * built-ins the writer calls and by the notification's `notify` method.
   */
  class World {
    var dirs: set<string>
    var files: map<string, string>
    var sent: seq<Notification>
    /** What `routeNotificationForSlack()` returns; a missing route is the empty string. */
    const slackRoute: string

    constructor (dirs: set<string>, files: map<string, string>, slackRoute: string)
      ensures State() == WorldState(dirs, files, []) && this.slackRoute == slackRoute
    {
      this.dirs := dirs;
      this.files := files;
      this.sent := [];
      this.slackRoute := slackRoute;
    }

    function State(): WorldState
      reads this
    {
      WorldState(dirs, files, sent)
    }

    /** `file_exists($path)`. */
    method FileExists(path: string) returns (b: bool)
      ensures b == Exists(State(), path)
    {
      b := path in dirs || path in files;
    }

    /** `mkdir($path, 0777, true)`, which here always succeeds. */
    method MakeDirectory(path: string)
      modifies this
      ensures State() == old(State()).(dirs := old(dirs) + {path})
    {
      dirs := dirs + {path};
    }

    /** `file_put_contents($path, $data, $append ? FILE_APPEND : 0)`. */
    method PutContents(path: string, data: string, append: bool)
      modifies this
      ensures State() == old(State()).(files := old(files)[path :=
                if append then ContentsOf(old(State()), path) + data else data])
    {
      var previous := if path in files then files[path] else "";
      files := files[path := if append then previous + data else data];
    }

    /** `$notification->notify(...)`: the sink records the notification. */
    method Notify(n: Notification)
      modifies this
      ensures State() == old(State()).(sent := old(sent) + [n])
    {
      sent := sent + [n];
    }
  }
}
