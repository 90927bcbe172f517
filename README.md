# WebsiteOne: event parameters and project API responses

A Dafny model of the two pieces of sequential logic in WebsiteOne's backend.
Everything around them is ORM queries and framework glue.

**Events controller** (`events.dfy`, module `Events`). This part turns a submitted
event form into the attribute map that gets saved. The form is the nested
`event` hash plus a few top-level parameters.

- The form is merged with an actor stamp, then restricted to the permitted keys,
  their multi-parameter keys (such as `start_datetime(1i)`) and the day-list
  array.
- `repeat_ends` is derived from the UI toggle string.
- `repeat_ends_on` gets a `" UTC"` suffix.
- `biweekly` forces an interval of two weeks.
- When a start date and a start time are both present, they are converted to
  UTC with the zone offset in force at the *next occurrence*, not at the start
  date. This daylight-saving quirk is kept on purpose.

The module also models the defaults of the new-event form and the alert that a
failed update shows. `EventsController` is a class because `new` rewrites
`params[:project_id]` in place. Its other methods only read the request.

**Project API** (`projects.dfy`, module `Projects`). This part models:

- the three-key order of the project list;
- the follower, document and language maps keyed by title, built by one merge
  loop over all projects;
- the languages-only endpoint;
- the detail endpoint with its numbered `url<i>`/`name<i>` repository map.

A missing project, or a project without a user, is an explicit error outcome
(`NilProject`, `NilUser`). The source fails with a call on nil in these cases.

`common.dfy` (module `Common`) holds `Option`/`Result`, `Integer#to_s` and
`Array#join`.

Modelling notes:

- Values follow Ruby and Rails. `blank?` is true for nil, false, an empty array
  or a string of Unicode white space (`Blank`). Truthiness (`Truthy`) is false
  only for nil and false, so an empty `project` slug is looked up and raises.
- The time-zone database and the date parser are the fields of `Clock`:
  `zoneExists`, `utcOffset(zone, instant)` and `parse`. A date or time operand
  that is not a string makes the concatenation raise (`NotAString`).
- The offset lookup receives the next date and the start time parsed as a UTC
  instant, as `period_for_utc` is called in the source. It is not the local
  instant.
- `Array#join` is modelled exactly: nil joins as the empty string, and a nested
  array is joined with the same separator. So the update alert ends with a space
  when the update did not raise, and has two spaces after the heading when there
  are no validation messages.
- `permit` keeps, for every permitted scalar attribute, also the keys made of
  that attribute followed by `(<digits>)`, `(<digits>i)` or `(<digits>f)`,
  when they hold a scalar (`PermittedKey`). Such keys pass through the
  transformation untouched, even when the attribute itself is rewritten.
- On update, a `creator_id` in the submitted form passes the whitelist. The
  actor stamp does not overwrite it (`InitiatorStamped`).

## Model

| member | source | states |
|---|---|---|
| `Common.NatToString` | app/api/projects/api.rb:53 | The rendering of a repository counter is non-empty, all decimal digits, with no leading zero |
| `Common.DecimalValueOfNatToString` | app/api/projects/api.rb:53 | Reading the decimal rendering of a counter back gives the counter |
| `Common.NatToStringInjective` | app/api/projects/api.rb:53 | Distinct counters render differently |
| `Common.IntToString` | app/controllers/events_controller.rb:128 | `id.to_s` is non-empty and starts with a minus sign exactly for negative ids |
| `Events.ActionInitiator` | app/controllers/events_controller.rb:92-94 | The stamp has exactly one key holding the current user: `modifier_id` when a stored event has a creator, otherwise `creator_id` |
| `Events.MultiParameterKeysPermitted` | app/controllers/events_controller.rb:89 | `permit` admits `attr(<digits>)`, `attr(<digits>i)` and `attr(<digits>f)` for every allowed attribute |
| `Events.PlainKeyPermitted` | app/controllers/events_controller.rb:89 | A key without a parenthesis is admitted exactly when it is an allowed attribute |
| `Events.WhitelistEventParams` | app/controllers/events_controller.rb:80-90 | Without an event hash the call raises (`NoEventHash`). Otherwise only permitted keys, their multi-parameter keys and the day list survive, a scalar stamp entry overrides the form, and every non-stamp key passes through exactly when `permit` keeps it |
| `Events.DateAndTimePresent` | app/controllers/events_controller.rb:111-113 | The start instant is recomputed only when both `start_date` and `start_time` were submitted with truthy values. An empty date or time does not count |
| `Events.WallClock` | app/controllers/events_controller.rb:103 | Parsing `date + ' ' + time` succeeds exactly when both are strings and the parser accepts the joined text, and yields the parser's instant |
| `Events.NextDateOffset` | app/controllers/events_controller.rb:106-109 | The offset is the zone's UTC offset at the instant parsed from next date and start time. It fails exactly when that parse fails |
| `Events.StartDateTime` | app/controllers/events_controller.rb:100-104 | Succeeds exactly when the zone is known and both the next-date and the start-date parses succeed. The result is the start wall clock minus the offset at the next occurrence |
| `Events.StoredStartReadsBack` | app/controllers/events_controller.rb:96-98 | The stored start, read back in the zone, differs from the submitted wall clock by the offset at the stored instant minus the offset at the next date. It is exact if and only if the two offsets agree |
| `Events.HourBackAcrossDaylightSaving` | app/controllers/events_controller.rb:97 | A start on 1 March 2016 with a next occurrence after the New York DST change stores 14:00 UTC, which reads back one hour early |
| `Events.Normalised` | app/controllers/events_controller.rb:74-76 | Adds exactly `repeat_ends`, `repeat_ends_on` and, for biweekly, `repeats_every_n_weeks`, with the derived values. Every other key is unchanged |
| `Events.Transformed` | app/controllers/events_controller.rb:71-78 | Fails without an event hash, or when a present date and time cannot be converted (with the conversion's error). On success every key is a permitted attribute, a multi-parameter key of one, or the day list |
| `Events.RepeatEndsFromToggle` | app/controllers/events_controller.rb:74 | `repeat_ends` is true exactly when the submitted `repeat_ends_string` is `"on"`. An absent toggle gives false, and a submitted `repeat_ends` is overwritten |
| `Events.RepeatEndsOnMarked` | app/controllers/events_controller.rb:75 | `repeat_ends_on` is the top-level value followed by `" UTC"` when present, and `""` otherwise |
| `Events.BiweeklyEveryTwoWeeks` | app/controllers/events_controller.rb:76 | A `biweekly` event gets `repeats_every_n_weeks` 2 whatever was submitted. Otherwise the whitelisted submission is kept |
| `Events.InitiatorStamped` | app/controllers/events_controller.rb:87 | With a stored creator, `modifier_id` is the current user and `creator_id` is whatever the form carried. Without one, `creator_id` is the current user and `modifier_id` is whatever the form carried |
| `Events.StartInstantRecomputed` | app/controllers/events_controller.rb:100-113 | `start_datetime` is recomputed exactly when start date and start time are both present (`DateAndTimePresent`). Otherwise the whitelisted value passes through untouched |
| `Events.OtherKeysWhitelisted` | app/controllers/events_controller.rb:80-89 | Every key the transformation does not write is present exactly when `permit` keeps it, and holds the submitted value |
| `Events.MultiParameterPartKept` | app/controllers/events_controller.rb:71-89 | A scalar submitted under `start_datetime(1i)` is saved as submitted |
| `Events.UpdateAlert` | app/controllers/events_controller.rb:58 | The alert is `"Failed to update event: "`, then the messages space-joined, then a space, then `"attributes invalid"` only when the attempt raised |
| `Events.EventsController.CreateStartDateTime` | app/controllers/events_controller.rb:100-104 | Leaves the attributes unchanged without a date and time. Otherwise it sets `start_datetime` to `StartDateTime` or fails with its error |
| `Events.EventsController.TransformParams` | app/controllers/events_controller.rb:71-78 | The step-by-step rewrite of the event parameters yields exactly `Transformed` |
| `Events.EventsController.Update` | app/controllers/events_controller.rb:48-62 | Redirects exactly when the transformation succeeds and the save succeeds. Otherwise the alert notes a raise when the transformation failed or the save raised |
| `Events.EventsController.NewParams` | app/controllers/events_controller.rb:127-131 | Fails (`ProjectNotFound`) exactly when a truthy slug finds no project. `project_id` comes from the slug, else the submitted truthy id, else the fallback id or nil. The result has `duration` 30, `repeat_ends` true, `start_datetime` now, and the scalar `name`/`category`/`for`/`project_id` and their multi-parameter keys |
| `Projects.CompareTextFlip` | app/api/projects/api.rb:9 | Swapping two statuses flips their comparison |
| `Projects.CompareTextSame` | app/api/projects/api.rb:9 | Two statuses tie exactly when they are equal |
| `Projects.CompareTextTransitive` | app/api/projects/api.rb:9 | The status order is transitive |
| `Projects.CompareProjects` | app/api/projects/api.rb:9-11 | Two projects tie exactly when status, last GitHub update and commit count are all equal |
| `Projects.PrecedesTotal` | app/api/projects/api.rb:8-12 | Any two projects can be ordered one way or the other |
| `Projects.PrecedesTransitive` | app/api/projects/api.rb:8-12 | The three-key list order is transitive |
| `Projects.OrderingKeys` | app/api/projects/api.rb:9-11 | A lower status comes first. At equal status a later or non-null `last_github_update` comes first, then at equal update a larger or non-null `commit_count` comes first |
| `Projects.InsertOrdered` | app/api/projects/api.rb:8-12 | Inserting into an ordered list keeps it ordered and adds exactly the new project |
| `Projects.OrderedProjects` | app/api/projects/api.rb:8-12 | The ordered list is a permutation of all projects, sorted by the three keys |
| `Projects.ByTitleKeys` | app/api/projects/api.rb:22-26 | A title-keyed map has exactly the set of all project titles as keys |
| `Projects.ByTitleLastWins` | app/api/projects/api.rb:23-25 | Under a title the map holds the value of the last project with that title |
| `Projects.ListProjects` | app/api/projects/api.rb:18-32 | The list is an ordered permutation of all projects. The followers, documents and languages maps are the merge-loop maps, and all three have the set of all titles as keys |
| `Projects.ListLanguages` | app/api/projects/api.rb:35-41 | The languages endpoint returns the same title-keyed languages map as the list endpoint |
| `Projects.UrlKeyInjective` | app/api/projects/api.rb:53 | `url<i>` keys of different counters differ |
| `Projects.NameKeyInjective` | app/api/projects/api.rb:53 | `name<i>` keys of different counters differ |
| `Projects.UrlKeyIsNotNameKey` | app/api/projects/api.rb:53 | No `url<i>` key equals a `name<j>` key |
| `Projects.NumberedRepositoriesKeys` | app/api/projects/api.rb:50-55 | The keys are exactly `url<i>` and `name<i>` for i from 1 to n, so an empty list gives an empty map |
| `Projects.NumberedRepositoriesAt` | app/api/projects/api.rb:52-53 | The i-th repository's url and name sit under `url<i>` and `name<i>` |
| `Projects.NumberedRepositoriesSize` | app/api/projects/api.rb:50-55 | The map has exactly 2n entries |
| `Projects.NumberSourceRepositories` | app/api/projects/api.rb:50-55 | The counting loop builds exactly the numbered map. The body proves that the counter starts at 1 and runs one ahead of the repositories done |
| `Projects.FindBySlug` | app/api/projects/api.rb:49 | The result is absent exactly when no project has the slug. Otherwise it is a project of the store with that slug |
| `Projects.ShowProject` | app/api/projects/api.rb:47-61 | Fails with `NilProject` when no project has the slug, and with `NilUser` when the project has no user. Otherwise it returns the project, its manager's name and its numbered repositories |

## Left out

- HTTP plumbing is not modelled: routing, the Grape DSL, `respond_to`, render and redirect, flash storage, `before_action` authentication and the `request.xhr?` branch.
- `create` is not modelled beyond `transform_params`, which it shares with `update`. `EventCreatorService` is a foreign collaborator. The top-level `params[:creator_id]` that `create` sets is never read by the transformation.
- The failure sentence of `create` (`to_sentence`) is not modelled, because it is produced inside the foreign creation service's failure callback.
- `show`, `index`, `edit` and `destroy` are not modelled, because they are ORM queries and foreign calls (`next_occurrences`, `recent_hangouts`, `upcoming_events`, `set_repeat_ends_string`).
- ActiveRecord and friendly_id lookups are given as inputs: `Project.all` is a sequence in store order, the friendly finder is a map from slug or id text to id, and the `CS169` project's id is an `Option`. Persistence in `update` is a given function returning saved, rejected or raised.
- The follower count, document count and `Project#languages` of each project are given with the project.
- `includes(:user)` is not modelled, because eager loading changes nothing the response shows.
- The time-zone database and `DateTime.parse` are not modelled. They are the abstract fields of `Clock`, and `Time.now.utc` is the parameter `now`.
- Render: an array is rendered as `["a", "b"]` without the escaping `String#inspect` applies inside the items. A time value is rendered as its seconds count, although a request never carries one.
- OrderedProjects: the database may break full ties in any order. The contracts of `OrderedProjects` and `ListProjects` state only "ordered permutation", and `OrderedProjects` is one such order.
- Statuses are compared by character code. The database collation is not modelled.
- FindBySlug: with duplicate slugs, the first match in store order is taken. The lookup result order is otherwise not modelled.
- Concurrent requests seeing different snapshots between the aggregation queries are not modelled.
- `app/models/commit_count.rb` is not modelled, because it is a declarative presence validation with no logic of its own.
