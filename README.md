# Palliative-care records store, modelled in Dafny

The records store keeps four tables: patients, home visits, material allocations and inventory items. Clients read and write them through JSON views. This project models the write paths and the two reports of those views:

- **Registering a patient.** The age is read with Python's `int()`. A submitted condition of Stable, Moderate, Severe, Critical or Bedridden becomes the initial status; any other condition gives "Active".
- **Creating visits, allocations and inventory items.** Each record gets the declared defaults of its model.
- **Partial update.** In the visit, patient and inventory detail views, every key of the body that names a field is assigned to that field. Saving the record then converts each assigned value, or fails.
- **Status propagation.** Saving a visit whose condition assessment is true for Python copies the assessment into its patient's current status. The test is made on the value the request assigned, before it is stored as text.
- **Returning an allocation.** A returnable, undamaged, linked allocation restocks its inventory item by one.
- **Inventory history.** It merges the linked allocations with the unlinked ("legacy") ones whose material name contains the item name, case-insensitively. The merged list is de-duplicated and ordered newest first, then four counters are folded over it.
- **Analytics counts.** The view counts patients by status, excluding expired ones, and by age group.
- **Delete rules.** Deleting a patient cascades to its visits and allocations. Deleting an inventory item sets its allocations' link to null.

Modules:

- `Values` (values.dfy): decoded JSON values, with Python's `int()`, `str()` and truthiness on them. It also holds the conversions the model fields apply on save: integer, boolean, text and date, each non-null or nullable.
- `Text` (text.dfy): the case-insensitive substring test of a `__icontains` lookup on SQLite. SQLite's LIKE folds ASCII letters only.
- `Records` (records.dfy): the four records, the declared status choices and default, status propagation, and the delete rules.
- `Fields` (fields.dfy): the generic assignment loop and each record's table from body key to field (`hasattr`). Also the save of an assigned record.
- `Views` (views.dfy): the records the creation views build, and the return/restock of an allocation update.
- `History` (history.dfy): the merged history and its counters.
- `Analytics` (analytics.dfy): the counts of the analytics view.
- `Storage` (store.dfy): the `Store` class, which holds the four tables and the next id of each. It has one method per write request, and each method keeps referential integrity (`Valid`).

Design notes:

- Dates are opaque day numbers.
- A request body is a map from key to value.
- Errors are `InvalidAge`, `NotFound` (404) and `Rejected` (any other exception, reported as 400).

## Model

| member | source | states |
|---|---|---|
| Values.ParseIntOfIntToString | palliative/palliative_project/api/views.py:77 | `int()` reads back every integer written by `str()` |
| Values.ParseIntIgnoresSurroundingSpace | palliative/palliative_project/api/views.py:77 | white space before or after the digits does not change what `int()` reads |
| Values.PyIntOfNumericString | palliative/palliative_project/api/views.py:77 | an age sent as a decimal string is accepted as that number |
| Values.IntegerFieldOfDecimal | palliative/palliative_project/api/models.py:8 | an integer column reads back an integer sent as a number or as its decimal string, and a boolean only as 1 or 0 |
| Values.BooleanField | palliative/palliative_project/api/models.py:16 | a boolean column accepts exactly True, False, 1, 0 and the strings "t", "True", "1", "f", "False", "0"; it stores 1, "t", "True" and "1" as true and the rest of these as false, so the string "0" is stored as false although Python finds it true. None, dates, arrays and objects fail |
| Values.TruthyOfText | palliative/palliative_project/api/views.py:305 | a string that can occur in a decoded body is true for Python exactly when its text is not empty |
| Values.PyStr | palliative/palliative_project/api/models.py:5 | `str()` of a number or a boolean reads back as the same number or boolean |
| Values.TextField | palliative/palliative_project/api/models.py:5 | a non-null text column fails exactly on None; it stores a string unchanged, and stores a number or boolean as text that reads back to it |
| Values.NullableTextField | palliative/palliative_project/api/models.py:25 | a nullable text column stores None as null and everything else as a text column does |
| Text.Lower | palliative/palliative_project/api/views.py:341 | ASCII lower-casing keeps the length and folds each character on its own |
| Text.ContainsAt | palliative/palliative_project/api/views.py:341 | the LIKE scan finds the needle exactly when it is a slice of the material name at some position |
| Text.ContainsEmpty | palliative/palliative_project/api/views.py:341 | an empty item name matches every material name |
| Text.ContainsIgnoreCaseSelf | palliative/palliative_project/api/views.py:341 | a material name equal to the item name up to case matches it |
| Text.ContainsIgnoreCaseInside | palliative/palliative_project/api/views.py:338-342 | a material name such as "Name (Category)" that contains the item name matches it |
| Records.Propagated | palliative/palliative_project/api/models.py:49-54 | after a visit is saved, an assessment that passed the truth test becomes its owner's status, as the text the visit stores. Otherwise the patients are unchanged. No other patient and no other field changes |
| Records.PropagatedIdempotent | palliative/palliative_project/api/models.py:49-54 | saving the same visit twice, with the same test outcome, gives the patients of saving it once |
| Records.PropagatedKeepsStatusChoices | palliative/palliative_project/api/models.py:41 | the assessment choices are status choices (line 17), so a declared assessment keeps every status within its declared choices |
| Fields.AssessmentAssignedStored | palliative/palliative_project/api/models.py:52-53 | after a partial update, an assessment that passes the truth test is stored as text. For an assessment sent as a string or as null, the test agrees with the stored text being non-empty |
| Fields.ZeroAssessmentStoredNotPassedOn | palliative/palliative_project/api/models.py:52 | an assessment sent as the number 0 is stored as the non-empty text "0", yet the owner's status is left alone |
| Records.VisitsWithoutPatient | palliative/palliative_project/api/models.py:31 | deleting a patient removes exactly that patient's visits and keeps the others as they were |
| Records.AllocationsWithoutPatient | palliative/palliative_project/api/models.py:57 | deleting a patient removes exactly that patient's allocations and keeps the others as they were |
| Records.AllocationsUnlinked | palliative/palliative_project/api/models.py:59 | deleting an item keeps every allocation and clears only the links to that item |
| Records.DeletePatientKeepsLinks | palliative/palliative_project/api/models.py:31 | after the cascade every visit and allocation names an existing patient |
| Records.DeleteItemKeepsLinks | palliative/palliative_project/api/models.py:59 | after setting links to null no allocation names the deleted item |
| Fields.CollectAssignments | palliative/palliative_project/api/views.py:47-49 | the loop assigns exactly the fields some body key names, each with that key's value |
| Fields.CollectVisitAssignments | palliative/palliative_project/api/views.py:47-49 | the visit fields assigned are those whose names are keys of the body, with the body's values |
| Fields.CollectPatientAssignments | palliative/palliative_project/api/views.py:122-124 | the patient fields assigned are those whose names are keys of the body, with the body's values |
| Fields.CollectItemAssignments | palliative/palliative_project/api/views.py:284-286 | the inventory fields assigned are those whose names are keys of the body, with the body's values |
| Fields.SavePatient | palliative/palliative_project/api/views.py:125 | `patient.save()` fails exactly when some assigned value does not convert for its field's type |
| Fields.SavePatientFields | palliative/palliative_project/api/views.py:122-125 | after a successful save every assigned field holds its converted value and every other field is unchanged |
| Fields.SaveVisitFields | palliative/palliative_project/api/views.py:50 | `visit.save()` fails exactly when some assigned value does not convert, and never changes the visit's patient |
| Fields.SaveVisitFieldsValues | palliative/palliative_project/api/views.py:47-50 | after a successful save every assigned field holds its converted value and every other field is unchanged |
| Fields.SaveItem | palliative/palliative_project/api/views.py:287 | `item.save()` fails exactly when some assigned value does not convert for its field's type |
| Fields.SaveItemFields | palliative/palliative_project/api/views.py:284-287 | after a successful save every assigned field holds its converted value and every other field is unchanged |
| Views.NewPatient | palliative/palliative_project/api/views.py:76-101 | "Invalid Age" exactly when `int(age)` raises. Otherwise the patient is registered exactly when every column converts (text columns refuse None, the birth date must parse). The record holds that age and each sent value as its column stores it, with the relative's name defaulting to "". Its status is the condition when listed, otherwise "Active". It is not expired and is registered today |
| Views.RegistrationLeavesStatusChoices | palliative/palliative_project/api/views.py:84-85 | a "Critical" or "Bedridden" condition gives a status outside the declared status choices |
| Views.NewVisit | palliative/palliative_project/api/views.py:159-167 | the visit is created exactly when its owner exists and the scheduled date converts. The owner is the URL's patient when given and non-zero, else the row the body's `patient_id` names. It stores the converted scheduled date, the sent service and assessment as nullable text (null exactly when none was sent), and nothing completed: no visit date, no time spent, no symptoms or notes |
| Views.AssessmentGivenStored | palliative/palliative_project/api/views.py:166 | for a created visit, an assessment that passes the truth test is stored as text. For a string or null assessment, the test agrees with the stored text being non-empty |
| Views.FalseAssessmentNotPassedOn | palliative/palliative_project/api/views.py:161-167 | a visit created with the assessment `false` stores "False", yet passes no status on |
| Views.ForeignKeyOfId | palliative/palliative_project/api/views.py:162 | a foreign key sent as a number or as its decimal string names its row |
| Views.ForeignKeyOfMissingId | palliative/palliative_project/api/views.py:162 | a foreign key `int()` reads as an id that names no row rejects the request |
| Views.NewAllocation | palliative/palliative_project/api/views.py:190-201 | the allocation is created exactly when the URL's patient exists, the link is empty or names an existing item, and every column converts. The link is null exactly when `inventory_item_id` is missing, null or the empty string. The material name, the dates and the returnable and damaged flags are the sent values as their columns store them; the flags default to false |
| Views.NewItem | palliative/palliative_project/api/views.py:259-264 | the item is created exactly when `int()` reads the count and the name and category are not None. The count is `int()` of the sent count, 0 when none is sent. The name (which the history matches on), the category and the description are the sent text, the description defaulting to "" |
| Views.ApplyReturn | palliative/palliative_project/api/views.py:305-319 | without a non-empty return date nothing changes. Otherwise only the linked item's count changes, rising by one exactly when the allocation is returnable, the raw damage flag is false and an item is linked. The allocation gets the date and the flag when both convert, and stays unchanged with an error otherwise |
| Views.ReturnWithBooleanFlag | palliative/palliative_project/api/views.py:305-314 | with a date and a boolean flag (default false) the return is recorded, and the linked count rises by one iff returnable, not damaged and linked; every other count is unchanged |
| Views.ReturnTwiceRestocksTwice | palliative/palliative_project/api/views.py:305-319 | sending the same qualifying return twice raises the linked count by two, even when the first save of the allocation failed |
| Views.RejectedReturnStillRestocks | palliative/palliative_project/api/views.py:311-319 | the item is saved before the allocation, so a return date the date column rejects still raises the count |
| History.InsertByDate | palliative/palliative_project/api/views.py:345 | inserting keeps the newest-first order and adds exactly the one allocation |
| History.NoDuplicates | palliative/palliative_project/api/views.py:345 | a sequence holding each element of a set once has no repeated allocation |
| History.MergedHistory | palliative/palliative_project/api/views.py:335-345 | the history is exactly the linked allocations plus the unlinked ones whose material name contains the item name, each once, with non-increasing allocation dates |
| History.CountWhere | palliative/palliative_project/api/views.py:364-372 | a count over the history never exceeds its length |
| History.TallyPartition | palliative/palliative_project/api/views.py:349-372 | total is the history length. Returned good plus damaged is the number of rows with a return date, and with-patient is the number of returnable unreturned rows. With the unreturnable unreturned rows, the counters add up to the total |
| History.TallyBounded | palliative/palliative_project/api/views.py:349-372 | returned good, returned damaged and with patient together never exceed the total |
| History.StringFlagCountedGoodNotRestocked | palliative/palliative_project/api/views.py:307-314 | a returnable, linked allocation returned with `is_damaged` sent as "0", "f" or "False" is stored undamaged and counted as returned good (lines 364-368), yet no count rises |
| History.Rows | palliative/palliative_project/api/views.py:356-362 | one row per allocation, in order, with its patient's name, dates and flags |
| History.CountHistory | palliative/palliative_project/api/views.py:347-372 | the loop produces the rows of the history and the counters folded over it |
| History.InventoryHistory | palliative/palliative_project/api/views.py:331-378 | not found exactly for an unknown item; an existing item always gets its report: the item, the rows of its merged newest-first history and the counters over that history |
| Analytics.WithStatus | palliative/palliative_project/api/views.py:215-217 | the active, moderate and severe counts include no expired patient |
| Analytics.AgeGroupsDisjoint | palliative/palliative_project/api/views.py:225-230 | no patient falls in two age groups |
| Analytics.AgeGroupsCover | palliative/palliative_project/api/views.py:225-230 | every patient falls in some age group |
| Analytics.AgeGroupsPartition | palliative/palliative_project/api/views.py:212-230 | the four age-group counts add up to the patient total |
| Analytics.StatusCountsBounded | palliative/palliative_project/api/views.py:212-218 | active, moderate, severe and expired together never exceed the total |
| Analytics.RegistrationCountsInOneGroup | palliative/palliative_project/api/views.py:225-230 | a new patient adds one to the total and to its own age group only |
| Storage.VisitUpdated | palliative/palliative_project/api/views.py:35-51 | an unknown visit is not found, and a `patient` key rejects the request. Otherwise the visit is saved with the body's assignments and its assessment propagated, using the truth value of the assessment the body assigned. Or the request is rejected with both tables unchanged |
| Storage.PatientUpdated | palliative/palliative_project/api/views.py:114-126 | an unknown patient is not found; a `visits` or `allocations` key rejects the request. Otherwise the patient is saved with the body's assignments, or the request is rejected with the table unchanged |
| Storage.ItemUpdated | palliative/palliative_project/api/views.py:276-288 | an unknown item is not found; a `materialallocation_set` key rejects the request. Otherwise the item is saved with the body's assignments, or the request is rejected with the table unchanged |
| Storage.Returned | palliative/palliative_project/api/views.py:298-320 | an unknown allocation is not found; otherwise the tables become exactly those of the return/restock, with every link and owner unchanged |
| Storage.Store.RegisterPatient | palliative/palliative_project/api/views.py:76-97 | a rejected registration writes nothing; otherwise the new patient is stored under a fresh id and every other table is unchanged |
| Storage.Store.CreateVisit | palliative/palliative_project/api/views.py:159-168 | a rejected visit writes nothing. Otherwise it is stored under a fresh id, and its owner takes the assessment when the value sent is true for Python |
| Storage.Store.UpdateVisit | palliative/palliative_project/api/views.py:35-51 | the visit update on the store, keeping every link valid |
| Storage.Store.UpdatePatient | palliative/palliative_project/api/views.py:114-126 | the patient update on the store, keeping every link valid |
| Storage.Store.UpdateItem | palliative/palliative_project/api/views.py:276-288 | the inventory update on the store, keeping every link valid |
| Storage.Store.CreateAllocation | palliative/palliative_project/api/views.py:190-202 | a rejected allocation writes nothing; otherwise it is stored under a fresh id with its patient and item existing |
| Storage.Store.CreateItem | palliative/palliative_project/api/views.py:259-265 | a rejected item writes nothing; otherwise it is stored under a fresh id |
| Storage.Store.ReturnAllocation | palliative/palliative_project/api/views.py:298-320 | the allocation update on the store, keeping every link valid |
| Storage.Store.InventoryHistory | palliative/palliative_project/api/views.py:331-378 | the history report read from the current tables: not found exactly for an unknown item, otherwise always the report |
| Storage.Store.DeletePatient | palliative/palliative_project/api/models.py:31 | the patient, its visits and its allocations (line 57) are removed and every link stays valid |
| Storage.Store.DeleteItem | palliative/palliative_project/api/models.py:59 | the item is removed, its allocations stay with a null link, and every link stays valid |

## Left out

- `translate_text` calls an external translation service; it is not part of this model.
- HTTP and JSON plumbing (request decoding, responses, status codes, the 405 branches, CSRF) is replaced by the `Result` of each operation.
- The GET branches that only serialise records are left out: `patient_list` with its active allocation names, `visit_list`, `allocation_list`, `inventory_list`, and the detail GETs. The same goes for the disease histogram of the analytics view, which only reshapes data.
- The debug prints and the URL routing are left out.
- Dates are opaque day numbers: calendar parsing is not modelled, so the date columns' conversions (`DateField`, `NullableDateField`) only accept or refuse a value. A date string is a value the date column either accepts (`DateStr`) or does not (`Str`). Python's `int()` reads a date string like any other string, so the basic ISO form "20240101" is both a date and an integer.
- JSON floating-point numbers are not modelled. Neither are Unicode digits, which Python's `int()` also accepts.
- Columns are treated as unbounded: the `max_length` limits of the text columns and 64-bit overflow of the integer columns are not modelled.
- Declared `choices` are not enforced on save, in the model as in the source.
- Body keys naming `id`, `pk`, `patient_id` or a method or class attribute of the record are treated as unknown by the update loop. The source assigns them with `setattr`, which can redirect the save to another row, move a visit to another patient or replace the record's `save`. Keys naming a reverse relation (`visits` and `allocations` on a patient, `materialallocation_set` on an item) and `patient` on a visit are modelled: their assignment, or the save that follows it, raises, so the request is answered 400.
- Each request runs alone, with no concurrent writers. A failing request leaves the writes it already made, as the return/restock shows; no transaction is modelled.
- Every write of one request is applied to the tables together: Django's separate `UPDATE` of each saved row is not modelled.
- The model assumes the default SQLite database, whose LIKE folds ASCII letters only.
- The delete rules are modelled as store operations, although no view of the core deletes records.
- Ties between equal allocation dates are ordered arbitrarily in the history, as the database's ordering is.
