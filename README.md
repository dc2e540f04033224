# Card-news story navigation

A model of the navigation controller of a single-page card-news slideshow
(`streamlit_app.py`). The story is a list of chapters, each an ordered list of
scenes. The page keeps two session-state indices, the current chapter and the
current scene. A "previous" button and a "next" button step through the scenes
in reading order, crossing chapter boundaries. A progress indicator shows
"current / total", where current counts the scenes of all earlier chapters plus
the scenes of the current chapter up to and including the current one.

Navigation depends only on how many scenes each chapter has. The story table is
therefore modelled as its shape, a `seq<nat>` of per-chapter scene counts. The
model is generic over every such table with at least one chapter and at least
one scene per chapter (`Story.WellFormed`). The page's own table has the shape
`[2, 1]`; `Navigation.WalkPageStory` walks it with the buttons.

- `story.dfy`, module `Story`: positions, the prefix-sum arithmetic behind the
  progress counter, the two transitions as functions (`Next`, `Prev`), and the
  lemmas about them. `PositionAt` is an independent reference definition: the
  position whose progress numerator is `k`. Both transitions are proved to
  agree with it.
- `navigation.dfy`, module `Navigation`: the class `Navigator` holding the two
  mutable indices. Its constructor is the session-state initialisation.
  `Retreat` and `Advance` are the two buttons, updating the fields in place.
  `Counter` is the progress indicator's numerator/denominator pair.

The invariant `Navigator.Valid()` says the indices address an existing scene,
so the lookups of the current chapter and scene (streamlit_app.py:124-125) are
always in range. Every method requires it and re-establishes it.

## Model

| member | source | states |
|---|---|---|
| Story.Progress | streamlit_app.py:165-167 | the progress numerator of a valid position lies between 1 and the total number of scenes |
| Story.Next | streamlit_app.py:155-161 | the "next" step from a valid position yields a valid position |
| Story.Prev | streamlit_app.py:146-151 | the "previous" step from a valid position yields a valid position |
| Story.PositionAt | streamlit_app.py:165-167 | for every k from 1 to the total there is a valid position whose progress numerator is k, so the counter reaches every value |
| Story.StartPosition | streamlit_app.py:118-121 | the initial indices (0, 0) address a scene of every well-formed story and show progress 1 |
| Story.ProgressAtStart | streamlit_app.py:166-167 | progress is 1 if and only if the position is chapter 0, scene 0 |
| Story.ProgressAtEnd | streamlit_app.py:165-167 | progress equals the total if and only if the position is the last scene of the last chapter |
| Story.ProgressInjective | streamlit_app.py:165-167 | two valid positions with the same progress numerator are the same position |
| Story.PositionAtProgress | streamlit_app.py:165-167 | the reference position for a valid position's own progress is that position |
| Story.NextProgress | streamlit_app.py:155-167 | "next" leaves the position unchanged at the last scene of the last chapter and otherwise raises progress by exactly 1 |
| Story.PrevProgress | streamlit_app.py:146-167 | "previous" leaves the position unchanged at (0, 0) and otherwise lowers progress by exactly 1 |
| Story.NextIsFollowingScene | streamlit_app.py:155-161 | away from the end, "next" yields exactly the position that is one scene later in reading order |
| Story.PrevIsPrecedingScene | streamlit_app.py:146-151 | away from the start, "previous" yields exactly the position that is one scene earlier in reading order |
| Story.PrevAfterNext | streamlit_app.py:146-161 | "previous" after "next" returns to the original position, except at the last scene of the last chapter |
| Story.NextAfterPrev | streamlit_app.py:146-161 | "next" after "previous" returns to the original position, except at (0, 0) |
| Navigation.Navigator.constructor | streamlit_app.py:118-121 | a new session starts at chapter 0, scene 0, which is valid and shows progress 1 |
| Navigation.Navigator.Retreat | streamlit_app.py:146-151 | the "previous" button keeps the indices valid, moves to `Prev` of the old position, is a no-op at (0, 0) and otherwise lowers progress by 1 |
| Navigation.Navigator.Advance | streamlit_app.py:155-161 | the "next" button keeps the indices valid, moves to `Next` of the old position, is a no-op at the last scene and otherwise raises progress by 1 |
| Navigation.Navigator.Counter | streamlit_app.py:165-167 | the shown pair is (progress, total) with 1 <= current <= total, and current equals total exactly at the last scene |

## Left out

- `create_scene_image` (streamlit_app.py:8-41): a sequence of drawing calls into an imaging library that is not part of this model; its only logic is a dispatch on the scene's illustration tag with an empty canvas for unknown tags.
- All page rendering: page configuration, the CSS block, columns, images, text, buttons, the progress bar and the rerun request (streamlit_app.py:45-77, 128-143, 152, 162, 168-169). A button press is modelled as a call of `Retreat` or `Advance`.
- The floating-point fraction `current / total` (streamlit_app.py:168): the model keeps the integer numerator and denominator; that the fraction lies in (0, 1] follows from `Counter`'s `1 <= current <= total`.
- The narrative content of the story table (chapter titles, scene titles, dialogue lines, illustration tags; streamlit_app.py:80-115): only the per-chapter scene counts matter to navigation.
- The session-state initialisation sets each index only when it is absent (streamlit_app.py:118-121); the model starts a session once, in the constructor, and reruns keep the object's fields.
- Stories with no chapter or with an empty chapter are excluded by `Story.WellFormed`: the page would fail on the lookup at streamlit_app.py:124-125 or produce scene index -1 at line 151.
