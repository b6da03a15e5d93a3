# Portfolio site: contact form, navigation shell and content cards

A Dafny model of the logic in a React single-page portfolio site. The
site has five sidebar-linked content pages and a contact form that sends
through EmailJS. Three pieces carry real behaviour, and they are what the
model covers:

- **Contact form** (`contact_page.dfy`, module `ContactPage`). The
  component keeps four controlled text fields, an `isSubmitting` flag and a
  tri-state `submitStatus` (`null` / `'success'` / `'error'`). These live in
  the class `ContactForm`, whose methods `HandleChange`, `HandleSubmit`,
  `PressSubmit` and `Resolve` overwrite them. Each method is specified by a
  pure transition function on a `ContactState` value: `ChangeField`,
  `SubmitForm`, `Step` and `SettleSend`. The EmailJS call is abstract:
  - an accepted submit appends the submitted fields to `outbox`;
  - an `Outcome` (`Delivered` or `Failed`) later settles the oldest pending
    send and runs the matching callback.

  Over any sequence of keystrokes, button clicks and settlements, the
  disabled button keeps at most one send in flight while the form stays
  mounted (`RunKeepsSingleFlight`).
  The handler itself has no such guard (`HandlerAloneAllowsSecondSend`).
- **Navigation shell** (`navbar.dfy`, module `Navbar`). This covers:
  - the fixed six-entry `navItems` table;
  - the active-link test, which is exact string equality with the pathname;
  - the rendered class lists;
  - the mobile-menu flag in class `Navbar`, with the toggle, close,
    link-click and overlay-click transitions.
- **Content pages** (`projects_page.dfy`, `experience_page.dfy`,
  `skills_page.dfy`). Each page is a pure function from its constant record
  array to a sequence of view records. Its lemmas cover:
  - the order and length of the rendered list;
  - each conditional block (cover kind, badge, action buttons, tech block,
    actions block, demo link);
  - the fixed order of the four skill categories and their stagger delays.

  `views.dfy` (module `Views`) holds what the pages share: `Option`, JavaScript
  truthiness of optional strings, and `Enumerate`. `Enumerate` is the
  `(item, index)` form of `Array.map` that gives list children their keys.

## Model

| member | source | states |
|---|---|---|
| `ContactPage.InitialIsIdle` | src/pages/ContactPage/ContactPage.jsx:38-51 | On mount all four fields are empty, `isSubmitting` is false, the status is null, no message is shown and the button is enabled |
| `ContactPage.ContactForm.constructor` | src/pages/ContactPage/ContactPage.jsx:38-51 | A new form holds the initial state |
| `ContactPage.Set` | src/pages/ContactPage/ContactPage.jsx:61-64 | Spreading the record and writing one key sets that field and keeps the other three |
| `ContactPage.ChangeField` | src/pages/ContactPage/ContactPage.jsx:60-65 | A keystroke in field f sets f to the new value; the other three fields, `isSubmitting`, the status and the sends are unchanged |
| `ContactPage.ContactForm.HandleChange` | src/pages/ContactPage/ContactPage.jsx:60-65 | The handler changes the state exactly as `ChangeField` says |
| `ContactPage.Validates` | src/pages/ContactPage/ContactPage.jsx:78 | A form that passes has non-empty name, email and message; a form that fails has one of those three empty |
| `ContactPage.ValidatesIffRequiredFilled` | src/pages/ContactPage/ContactPage.jsx:78 | The check passes iff every required field (name, email, message) is non-empty; the subject is never checked |
| `ContactPage.WhitespaceOnlyPasses` | src/pages/ContactPage/ContactPage.jsx:78 | The check is a pure emptiness test: any non-empty name, email and message pass whatever the subject holds, whitespace-only values included, and an empty name fails whatever the other fields hold |
| `ContactPage.SubmitForm` | src/pages/ContactPage/ContactPage.jsx:74-90 | A failed check sets status error and changes nothing else, so nothing is sent; a passed check raises `isSubmitting`, clears the status and issues exactly one send carrying the current fields |
| `ContactPage.ContactForm.HandleSubmit` | src/pages/ContactPage/ContactPage.jsx:74-90 | The handler returns whether it sent, which is exactly whether the check passed, and changes the state as `SubmitForm` says |
| `ContactPage.SettleSend` | src/pages/ContactPage/ContactPage.jsx:90-109 | Both outcomes lower `isSubmitting`. Success sets status success and empties all four fields, including edits made while the send was pending. Failure sets status error and keeps the fields exactly |
| `ContactPage.ContactForm.Resolve` | src/pages/ContactPage/ContactPage.jsx:90-109 | Settling a pending send changes the state as `SettleSend` says |
| `ContactPage.ButtonDisabled` | src/pages/ContactPage/ContactPage.jsx:241 | The button is disabled while `isSubmitting`; in a single-flight state that is exactly while a send is unsettled |
| `ContactPage.ButtonLabel` | src/pages/ContactPage/ContactPage.jsx:238-244 | The button reads "Sending..." exactly while it is disabled, and "Send Message" otherwise |
| `ContactPage.StatusMessage` | src/pages/ContactPage/ContactPage.jsx:226-236 | The success message shows exactly when the status is success, the error message exactly when it is error, and neither when it is null |
| `ContactPage.ContactForm.PressSubmit` | src/pages/ContactPage/ContactPage.jsx:238-243 | A click while `isSubmitting` does nothing; otherwise it runs the submit handler |
| `ContactPage.Step` | src/pages/ContactPage/ContactPage.jsx:60-109 | One event (keystroke, button click, or settlement of a send) issues at most one send and never retracts an earlier one, settles at most one send, and a click on the disabled button or a settlement with nothing pending changes nothing |
| `ContactPage.Run` | src/pages/ContactPage/ContactPage.jsx:238-243 | Over an event sequence the earlier sends stay in order, at most one send is added per event, and the settled count never decreases |
| `ContactPage.StepKeepsSingleFlight` | src/pages/ContactPage/ContactPage.jsx:241 | Every user event keeps "one send in flight iff `isSubmitting`" and issues at most one send; a click while submitting changes nothing |
| `ContactPage.RunKeepsSingleFlight` | src/pages/ContactPage/ContactPage.jsx:241 | From a single-flight state, every event sequence keeps at most one unsettled send, exactly while `isSubmitting` is true |
| `ContactPage.HandlerAloneAllowsSecondSend` | src/pages/ContactPage/ContactPage.jsx:74-90 | The handler does not check `isSubmitting`: called twice on a filled form, it issues two sends and breaks single flight |
| `ContactPage.SubmitThenDelivered` | src/pages/ContactPage/ContactPage.jsx:83-103 | A filled form that is submitted and delivered ends with status success, all fields empty and one send of the submitted fields |
| `ContactPage.SubmitThenFailed` | src/pages/ContactPage/ContactPage.jsx:104-108 | A filled form that is submitted and fails ends with status error and the fields as they were submitted |
| `Navbar.NavTableWellFormed` | src/components/Navbar/Navbar.jsx:41-48 | The table has six entries, so it is non-empty, and its ids and paths are pairwise distinct |
| `Navbar.IsActive` | src/components/Navbar/Navbar.jsx:109 | An item is active iff the pathname has the same length as its path and agrees with it character by character: strict equality, no prefix or case folding |
| `Navbar.RenderNavItem` | src/components/Navbar/Navbar.jsx:107-114 | An entry is keyed by its id and links to its path with its label; its class is `nav-item active` iff the pathname equals its path |
| `Navbar.RenderNavItems` | src/components/Navbar/Navbar.jsx:106 | One entry per table row, in table order |
| `Navbar.RenderedHighlight` | src/components/Navbar/Navbar.jsx:109 | In the rendered list, entry i is highlighted iff the pathname is exactly entry i's path |
| `Navbar.AtMostOneActive` | src/components/Navbar/Navbar.jsx:109 | No pathname activates two entries; some entry is active iff the pathname is one of the six table paths |
| `Navbar.HomeNotActiveElsewhere` | src/components/Navbar/Navbar.jsx:109 | There is no prefix matching: Home is not highlighted on any other pathname |
| `Navbar.Navbar.constructor` | src/components/Navbar/Navbar.jsx:32 | The menu starts closed |
| `Navbar.Navbar.ToggleMobileMenu` | src/components/Navbar/Navbar.jsx:57-59 | Toggling negates the flag |
| `Navbar.Navbar.CloseMobileMenu` | src/components/Navbar/Navbar.jsx:68-70 | Closing always leaves the menu closed |
| `Navbar.Navbar.ClickNavLink` | src/components/Navbar/Navbar.jsx:111 | Clicking any link closes the menu, whatever its prior state, and navigates to that item's path |
| `Navbar.Navbar.OverlayShown` | src/components/Navbar/Navbar.jsx:87-89 | The overlay is rendered exactly while the hamburger carries `open` and the nav carries `mobile-open`, that is, while the menu is open |
| `Navbar.Navbar.ClickOverlay` | src/components/Navbar/Navbar.jsx:88-94 | The overlay exists only while the menu is open; its click handler toggles, so the menu ends closed |
| `Navbar.Navbar.HamburgerClass` | src/components/Navbar/Navbar.jsx:80 | The hamburger has the `open` class iff the menu is open |
| `Navbar.Navbar.NavClass` | src/components/Navbar/Navbar.jsx:97 | The nav has the `mobile-open` class iff the menu is open |
| `Navbar.ToggleTwiceRestores` | src/components/Navbar/Navbar.jsx:57-59 | Two toggles restore the original state |
| `Navbar.CloseIsIdempotent` | src/components/Navbar/Navbar.jsx:68-70 | Closing twice is the same as closing once |
| `Navbar.OpenMenu` | src/components/Navbar/Navbar.jsx:75-97 | Opening the menu shows the overlay, the hamburger's `open` class and the nav's `mobile-open` class |
| `Navbar.OpenThenNavigate` | src/components/Navbar/Navbar.jsx:75-111 | Following a link after the menu was opened closes it and navigates to that link's path |
| `Views.Truthy` | src/pages/ExperiencePage/ExperiencePage.jsx:125-130 | An optional link passes the `&&` guard iff it is neither null/undefined nor the empty string |
| `Views.Enumerate` | src/pages/ProjectsPage/ProjectsPage.jsx:142-144 | Mapping with an index gives one child per element, in order, keyed by its position |
| `Views.EnumerateValues` | src/pages/ExperiencePage/ExperiencePage.jsx:109-111 | Dropping the keys gives back the array exactly: nothing is reordered, added or lost |
| `ProjectsPage.RenderProjectCard` | src/pages/ProjectsPage/ProjectsPage.jsx:116-165 | The cover is an emoji iff `coverType` is `'emoji'`; otherwise it is an image of `coverContent`. The badge shows iff the project is in progress. There is one tag per tech entry, in order. An in-progress card has only the disabled "Coming Soon" button and no anchor. Any other card has the GitHub and the demo anchor, carrying the link fields even when they are null |
| `ProjectsPage.RenderProjects` | src/pages/ProjectsPage/ProjectsPage.jsx:175 | One card per project, in array order |
| `ProjectsPage.InProgressCardsHaveNoLinks` | src/pages/ProjectsPage/ProjectsPage.jsx:148-160 | On the page, every in-progress card has a badge and only the disabled button, and every other card has exactly two anchors |
| `ProjectsPage.ProjectIdsUnique` | src/pages/ProjectsPage/ProjectsPage.jsx:40-107 | Project ids are pairwise distinct |
| `ProjectsPage.ProjectsHaveShape` | src/pages/ProjectsPage/ProjectsPage.jsx:40-107 | The six records have ids 1 to 6. Only the sixth is in progress. Only the fourth has an image cover. No record has a demo link |
| `ProjectsPage.ShapeRendering` | src/pages/ProjectsPage/ProjectsPage.jsx:116-175 | Such an array renders six cards keyed 1 to 6. Only card 6 has the badge, and it has only "Coming Soon". Only card 4 has an image, from the Money Manager asset. Cards 1 to 5 have demo anchors with no target |
| `ExperiencePage.RenderExperienceCard` | src/pages/ExperiencePage/ExperiencePage.jsx:85-140 | The heading is the organization, the role is the title, and the subline joins location and duration with a vertical bar. There is one key point per entry, in order. The tech block is present iff the stack is non-empty, with tags in order. The actions block is present iff the GitHub link is truthy. A demo link shows iff both links are truthy |
| `ExperiencePage.RenderExperiences` | src/pages/ExperiencePage/ExperiencePage.jsx:149 | One card per experience, in array order |
| `ExperiencePage.DemoNeedsGithub` | src/pages/ExperiencePage/ExperiencePage.jsx:124-136 | On the page, a demo link appears only beside a code link; without a GitHub link a card has no actions block and no demo link |
| `ExperiencePage.ExperiencesHaveShape` | src/pages/ExperiencePage/ExperiencePage.jsx:39-76 | The first record has both links and eight tech entries. The second has no links and an empty stack. Both have five key points |
| `ExperiencePage.ShapeRendering` | src/pages/ExperiencePage/ExperiencePage.jsx:85-149 | Such an array renders two cards. The first has a tech block, code and demo links. The second has neither a tech block nor an actions block |
| `SkillsPage.RenderSkillCard` | src/pages/SkillsPage/SkillsPage.jsx:78-95 | A card is keyed by its index, shows the name on the front and the years and context on the back, and is delayed by index tenths of a second |
| `SkillsPage.RenderSkillCards` | src/pages/SkillsPage/SkillsPage.jsx:109 | One card per skill, in array order, card i built from skill i |
| `SkillsPage.RenderCategory` | src/pages/SkillsPage/SkillsPage.jsx:104-113 | A box has its title and its delay, and card i is rendered from skill i with key and delay i |
| `SkillsPage.RenderSkillsPage` | src/pages/SkillsPage/SkillsPage.jsx:115-127 | The page has four boxes; box k carries the k-th category title and a delay of 2(k+1) tenths, and each box has one card per skill of its own array |
| `SkillsPage.SkillsPageViewFromData` | src/pages/SkillsPage/SkillsPage.jsx:121-124 | The page as rendered shows the four categories in order, box k holding the cards of the k-th `skillsData` array: 8, 6, 8 and 4 cards |
| `SkillsPage.CategoryOrder` | src/pages/SkillsPage/SkillsPage.jsx:121-124 | Exactly four boxes appear, titled Programming Languages, Frameworks & Libraries, Tools & Technologies and Software Design & Architecture in that order. Each holds its own array's cards. Their delays strictly increase |
| `SkillsPage.CardsInOrder` | src/pages/SkillsPage/SkillsPage.jsx:80 | Card i shows skill i's three fields, and a later card's delay is strictly greater than an earlier one's |
| `SkillsPage.SkillsDataComplete` | src/pages/SkillsPage/SkillsPage.jsx:35-68 | Every skill record has a non-empty name, years and context; the categories hold 8, 6, 8 and 4 skills |

## Left out

- The EmailJS `sendForm` call, the three `process.env` credentials and the `console.log` lines. They are a network call into a library that is not part of this model. The call is replaced by the `outbox` record and an `Outcome` passed to `Resolve`.
- The asynchrony of the promise: a send settles as one later step (`Resolve`, or the `Settle` event), never concurrently with another handler. Which pending send settles is not tracked, since the callbacks do not depend on it.
- React's batching of `setState` calls: each handler is modelled as applying its updates at once.
- Browser-native form validation (`required`, `type="email"`). It is browser behaviour; only the handler's own emptiness check is modelled.
- ContactPage.ContactForm.Resolve: requires a pending send, because a callback only runs for a send that was issued. In the event model, `Settle` with nothing pending is a no-op.
- ContactPage.RunKeepsSingleFlight: unmount and remount are not events; single flight holds per mounted form, and callbacks of an unmounted form are dropped. The page is a route element, so leaving and returning remounts it with `isSubmitting` false while an earlier send may still be pending; a network-level single send across remounts is not claimed.
- The route table in `src/App.js`, and the Home and About pages. The routes are matched by react-router, whose rules are not part of this model; the two pages are static prose.
- JSX markup, CSS, icons, the social links and the `Link`/`useLocation` internals: only the conditional class names, the block presence rules and the rendered text and links are modelled.
- SkillsPage.RenderSkillCard: the delay is kept in integer tenths. The source formats the float `index * 0.1` (for index 3 that prints `0.30000000000000004s`), and floating point is not modelled.
- ExperiencePage.RenderExperienceCard: `techStack` is modelled as always present. The source documents it as optional but reads `techStack.length` unguarded, so a record without one would throw and the page would not render; every record in the data has the field.
- ProjectsPage.ShapeRendering, ExperiencePage.ShapeRendering: the facts about the rendered pages are proved for any array with the shape of the constant data. `ProjectsHaveShape` and `ExperiencesHaveShape` show that the constant arrays have that shape.
- Validity of URLs and asset paths: nothing in the source checks them.
