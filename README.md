# Category slice — a Dafny model

This project models the category slice of a single-page application's store
(`src/component/features/Category/categorySlice.js`). The slice holds a list of
categories, one selected category, three status flags (`isLoading`, `isError`,
`isSuccess`) and a `message`. Five request thunks (list, create, get-one,
delete, update) each dispatch a pending, a fulfilled and a rejected action.
A `resetState` action puts the slice back to `initialState`.

- `wrappers.dfy`: `Option`, used for the nullable `category`.
- `js_values.dfy`: untyped JavaScript values and their truthiness. These are
  the values that reach `message`.
- `rejection.dfy`: the rejection value each thunk's `catch` block computes,
  `error.response?.data || error.message`.
- `category_list.dfy`: the two merges the reducer computes by expression.
  These are the `filter` applied when a delete succeeds and the `map` applied
  when an update succeeds. Lemmas cover order, counts, no-match and
  idempotence, plus how each merge and create's append treat duplicate ids.
- `category_slice.dfy`: the state, the closed set of actions (`Event`), the
  reducer as a pure transition `Step` with `Run` over event sequences, and
  lemmas about each case handler. The class `CategoryStore` holds the same
  fields and updates them one by one in its handlers, as the source's case
  handlers do on the draft state. Each handler's contract equates the new
  state with `Step` applied to the old one.

Category ids are an abstract type with equality, which stands for
JavaScript's `===`. A category's other fields are an abstract type and are
never inspected.

One might expect that after an update or a delete no two entries share an
id. The code does not establish that. Update replaces every entry with the
payload's id, so duplicates created by create's append survive as equal
copies (`CategoryList.ReplaceByIdKeepsDuplicates`). Delete only drops the one
id it was given. What does hold is that both merges preserve unique ids
(`CategoryList.RemoveByIdKeepsUnique`, `CategoryList.ReplaceByIdKeepsUnique`).
Uniqueness is broken only by create with an id already present
(`CategoryList.AppendDuplicatesPresentId`) or by a list response whose data
repeats an id. Every other event keeps it (`CategorySlice.StepKeepsUniqueIds`).

## Model

| member | source | states |
|---|---|---|
| `Rejection.RejectionValue` | src/component/features/Category/categorySlice.js:23 | a truthy response body is always chosen; the value is only ever the body or the message string; it is never nullish (truthy, or the empty message) |
| `Rejection.FalsyBodyFallsBackToMessage` | src/component/features/Category/categorySlice.js:23 | with no response, or a falsy body, the rejection value is the error's message |
| `CategoryList.RemoveById` | src/component/features/Category/categorySlice.js:145-147 | no surviving entry has the deleted id; every survivor comes from the old list; the list never grows |
| `CategoryList.RemoveByIdIsSubsequence` | src/component/features/Category/categorySlice.js:145-147 | the result is an order-preserving subsequence of the old list |
| `CategoryList.RemoveByIdCount` | src/component/features/Category/categorySlice.js:145-147 | each entry occurs as often as before if its id differs from the deleted one, and not at all otherwise |
| `CategoryList.RemoveByIdShrinksIffMatch` | src/component/features/Category/categorySlice.js:145-147 | the list gets shorter if and only if some entry has the deleted id |
| `CategoryList.RemoveByIdNoMatch` | src/component/features/Category/categorySlice.js:145-147 | when no entry has the deleted id, the list is unchanged |
| `CategoryList.RemoveByIdIdempotent` | src/component/features/Category/categorySlice.js:145-147 | filtering twice by the same id equals filtering once |
| `CategoryList.RemoveByIdKeepsUnique` | src/component/features/Category/categorySlice.js:145-147 | a list with unique ids still has unique ids after the filter |
| `CategoryList.ReplaceById` | src/component/features/Category/categorySlice.js:164-166 | length is preserved; at each index the entry becomes the payload if its id matches the payload's, and stays the old entry otherwise |
| `CategoryList.ReplaceByIdKeepsIds` | src/component/features/Category/categorySlice.js:164-166 | the id at every position is unchanged |
| `CategoryList.ReplaceByIdNoMatch` | src/component/features/Category/categorySlice.js:164-166 | when no entry has the payload's id, the list is unchanged |
| `CategoryList.ReplaceByIdIdempotent` | src/component/features/Category/categorySlice.js:164-166 | mapping twice with the same payload equals mapping once |
| `CategoryList.ReplaceByIdKeepsUnique` | src/component/features/Category/categorySlice.js:164-166 | a list with unique ids still has unique ids after the map |
| `CategoryList.ReplaceByIdKeepsDuplicates` | src/component/features/Category/categorySlice.js:164-166 | two entries sharing the payload's id both become the payload, so the map does not remove duplicates |
| `CategoryList.AppendDuplicatesPresentId` | src/component/features/Category/categorySlice.js:111 | appending an entry whose id is already present makes the ids non-unique (create does not deduplicate) |
| `CategoryList.AppendFreshIdKeepsUnique` | src/component/features/Category/categorySlice.js:111 | appending an entry with a new id to a list with unique ids keeps them unique |
| `CategorySlice.InitialState` | src/component/features/Category/categorySlice.js:5-12 | empty list, no selection, all flags false, `message` `""` |
| `CategorySlice.Step` | src/component/features/Category/categorySlice.js:84-176 | the reducer, one case per handler (pending, the five fulfilled merges, rejected, reset) and the reference the handler lemmas and `CategoryStore`'s methods are stated against; its contract says which events may write each field: only list, create, delete, update and reset change the list; only get-one and reset change the selection; only a rejection and reset change the message; loading is set after exactly the pending events; every fulfilled or rejected event sets exactly one of error and success |
| `JsValues.Truthy` | src/component/features/Category/categorySlice.js:23 | JavaScript truthiness, the test `\|\|` applies to `error.response?.data` |
| `CategorySlice.ResetRestoresInitial` | src/component/features/Category/categorySlice.js:176 | from any state, reset gives `initialState`: empty list, no selection, all flags false, empty message |
| `CategorySlice.ResetForgetsHistory` | src/component/features/Category/categorySlice.js:176 | any run that passes through a reset ends where the same later events would lead from `initialState` |
| `CategorySlice.PendingOnlyRaisesLoading` | src/component/features/Category/categorySlice.js:86-88 | any pending event sets `isLoading` and changes no other field (also lines 104-106, 121-123, 138-140, 157-159) |
| `CategorySlice.RejectedRecordsReason` | src/component/features/Category/categorySlice.js:96-101 | any rejected event clears loading and success, sets error, stores the payload as message, and keeps list and selection (also lines 113-118, 130-135, 149-154, 168-173) |
| `CategorySlice.ThunkRejectionMessage` | src/component/features/Category/categorySlice.js:22-23 | a rejection from a thunk's catch block leaves the truthy server body in `message`, or the error's message when the body is missing or falsy |
| `CategorySlice.SettledFlagsAgree` | src/component/features/Category/categorySlice.js:89-101 | after any fulfilled or rejected event, loading is off and error is set exactly when success is not |
| `CategorySlice.ListFulfilledReplacesList` | src/component/features/Category/categorySlice.js:89-95 | the list becomes `payload.data`; the flags say success; selection and message are unchanged |
| `CategorySlice.CreateFulfilledAppends` | src/component/features/Category/categorySlice.js:107-112 | the list grows by exactly one; the old entries stay first and in order; the payload is last; a repeated id produces a duplicate |
| `CategorySlice.GetOneFulfilledSelects` | src/component/features/Category/categorySlice.js:124-129 | the selection becomes the payload; the list and message are unchanged; the flags say success |
| `CategorySlice.DeleteFulfilledRemoves` | src/component/features/Category/categorySlice.js:141-148 | no entry keeps the deleted id; the result is an ordered subsequence; non-matching entries keep their counts; with no match the list is unchanged; selection and message are kept |
| `CategorySlice.DeleteFulfilledIdempotent` | src/component/features/Category/categorySlice.js:141-148 | handling the same delete success twice gives the state of handling it once |
| `CategorySlice.UpdateFulfilledReplaces` | src/component/features/Category/categorySlice.js:160-167 | the length is kept; matching entries become the payload and the others are untouched; selection and message are kept |
| `CategorySlice.UpdateFulfilledIdempotent` | src/component/features/Category/categorySlice.js:160-167 | handling the same update success twice gives the state of handling it once |
| `CategorySlice.StepKeepsUniqueIds` | src/component/features/Category/categorySlice.js:84-176 | every event keeps the list's ids unique, except create with an id already present and a list response whose data repeats an id |
| `CategorySlice.StepKeepsCoherent` | src/component/features/Category/categorySlice.js:84-176 | every handler keeps the invariant: never both error and success, and with neither set, list, selection and message are the initial ones |
| `CategorySlice.RunKeepsCoherent` | src/component/features/Category/categorySlice.js:84-176 | every sequence of events from a coherent state ends in a coherent state |
| `CategorySlice.NeverErrorAndSuccess` | src/component/features/Category/categorySlice.js:5-12 | no sequence of events from `initialState` sets error and success together |
| `CategorySlice.ListScenario` | src/component/features/Category/categorySlice.js:86-95 | list pending then fulfilled with one category leaves exactly that category and a success |
| `CategorySlice.DeleteScenario` | src/component/features/Category/categorySlice.js:141-148 | deleting id `a` from `[{id: a}, {id: b}]` leaves `[{id: b}]` |
| `CategorySlice.CategoryStore.constructor` | src/component/features/Category/categorySlice.js:5-12 | the store's fields start as `initialState` |
| `CategorySlice.CategoryStore.OnPending` | src/component/features/Category/categorySlice.js:86-88 | the fields afterwards are `Step` of the old fields under a pending event |
| `CategorySlice.CategoryStore.OnListFulfilled` | src/component/features/Category/categorySlice.js:89-95 | the fields afterwards are `Step` of the old fields under list success |
| `CategorySlice.CategoryStore.OnCreateFulfilled` | src/component/features/Category/categorySlice.js:107-112 | the fields afterwards are `Step` of the old fields under create success (the in-place push) |
| `CategorySlice.CategoryStore.OnGetOneFulfilled` | src/component/features/Category/categorySlice.js:124-129 | the fields afterwards are `Step` of the old fields under get-one success |
| `CategorySlice.CategoryStore.OnDeleteFulfilled` | src/component/features/Category/categorySlice.js:141-148 | the fields afterwards are `Step` of the old fields under delete success |
| `CategorySlice.CategoryStore.OnUpdateFulfilled` | src/component/features/Category/categorySlice.js:160-167 | the fields afterwards are `Step` of the old fields under update success |
| `CategorySlice.CategoryStore.OnRejected` | src/component/features/Category/categorySlice.js:96-101 | the fields afterwards are `Step` of the old fields under a rejection (every thunk's rejected case) |
| `CategorySlice.CategoryStore.OnReset` | src/component/features/Category/categorySlice.js:176 | the fields afterwards are `Step` of the old fields under reset, that is `initialState` |
| `CategorySlice.CategoryStore.Dispatch` | src/component/features/Category/categorySlice.js:79-178 | routing any action to its case handler changes the fields exactly as `Step` does |

## Left out

- The thunks' async bodies and their calls into `categoryService` (lines 15-74). These are network I/O through a module that is not part of this model. Only what they hand to the reducer is modelled: a fulfilled payload as an `Event` argument, or the rejection value of line 23.
- The `console.log` at line 20. It is a side effect with no effect on state.
- `createSlice`, `addCase`, action-type strings and Immer's draft proxies. These are library plumbing, replaced by the closed `Event` datatype and `Step`.
- Interleaving of requests that are in flight at the same time. Any order of completions is one sequence of events, which `Run` covers; scheduling itself is not modelled.
- Payload shapes are taken as the server promises them. A list response whose `data` is absent or not an array is not modelled: line 94 stores whatever `data` is (undefined when absent), and throws itself on a null or undefined payload; a later `push`, `filter` or `map` (lines 111, 145, 164) on a stored non-array would throw inside the reducer. A delete response without an `id` is not modelled either: the filter at lines 145-147 would compare every id with undefined, keep every entry that has an id, and report success. A null or undefined delete payload would make line 146 throw when the list is non-empty; on an empty list the handler succeeds with `[]`.
- Rejection.RejectionValue: the thrown value is assumed to be an Error with a string `message`. A thrown non-Error such as a string has no `message`, so line 23 would yield undefined. A thrown null would make line 23 itself throw. The "never nullish" guarantee holds only under this assumption.
- JavaScript numbers are integers in `JsValue`. NaN and fractional values are left out of truthiness.
- A category's fields other than `id`, and the structure of server error bodies. Both are untyped passthrough data and stay abstract.
