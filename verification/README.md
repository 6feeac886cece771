# FestivalForm: the festival-submission record

This project models `FestivalForm`, the JPA entity of the festival service
that records a user's proposal for a festival. A form carries a database id,
the festival's name, start and end dates, description, address, poster image
URL and fee, and the id of the user who filed it. It has two operations:

- `create(request, userId, imgUrl)` builds a new form. It copies six fields
  from the create request, takes the image URL and the owner from its other
  two arguments, and leaves the id unset for the database to generate.
- `update(request)` overwrites the seven editable fields in place from an
  update request, image included, and leaves the id and the owner alone.

`dto.dfy` (module `Dto`) holds the two request records and a stand-in for
`java.util.Date`. `festival_form.dfy` (module `FestivalFormEntity`) holds:

- the value of a form (`FormState`) and its editable part (`Details`);
- the functions `Created`, `Updated` and `Replay` (a series of updates);
- the lemmas about those functions;
- the class `FestivalForm`, whose fields are the entity's and whose methods
  `Create` and `Update` are proved against `Created` and `Updated`.

## Model

| member | source | states |
|---|---|---|
| `FestivalFormEntity.Created` | back/jeonwoochi_spring/microservices/festival-service/src/main/java/com/ssafy/Domain/Entity/FestivalForm.java:38-49 | A created form has no id. Its owner is the `userId` argument and its image is the `imgUrl` argument. Its name, dates, description, address and fee are the create request's. |
| `FestivalFormEntity.Updated` | back/jeonwoochi_spring/microservices/festival-service/src/main/java/com/ssafy/Domain/Entity/FestivalForm.java:50-58 | After an update the seven editable fields equal the request's, whatever they were before. The id and the owner are unchanged. |
| `FestivalFormEntity.Replay` | back/jeonwoochi_spring/microservices/festival-service/src/main/java/com/ssafy/Domain/Entity/FestivalForm.java:50-58 | Any number of updates in a row keeps the id and the owner. |
| `FestivalFormEntity.UpdateIdempotent` | back/jeonwoochi_spring/microservices/festival-service/src/main/java/com/ssafy/Domain/Entity/FestivalForm.java:50-58 | Applying the same update twice gives the same form as applying it once. |
| `FestivalFormEntity.LastWriteWins` | back/jeonwoochi_spring/microservices/festival-service/src/main/java/com/ssafy/Domain/Entity/FestivalForm.java:50-58 | Two updates in a row give the same form as the second update alone, with the id and owner from before both. |
| `FestivalFormEntity.UpdateForgetsDetails` | back/jeonwoochi_spring/microservices/festival-service/src/main/java/com/ssafy/Domain/Entity/FestivalForm.java:50-58 | Two forms are equal after the same update if and only if they had the same id and owner. |
| `FestivalFormEntity.ImageProvenance` | back/jeonwoochi_spring/microservices/festival-service/src/main/java/com/ssafy/Domain/Entity/FestivalForm.java:45-56 | Corollary of the `Created` and `Updated` contracts: `create` takes the image from its `imgUrl` argument, `update` takes it from the request. |
| `FestivalFormEntity.CreateThenUpdate` | back/jeonwoochi_spring/microservices/festival-service/src/main/java/com/ssafy/Domain/Entity/FestivalForm.java:38-58 | Corollary composing the `Created` and `Updated` contracts: updating a freshly created form leaves it without an id and with its owner. Its details become exactly the update request's. |
| `FestivalFormEntity.ReplayLastWins` | back/jeonwoochi_spring/microservices/festival-service/src/main/java/com/ssafy/Domain/Entity/FestivalForm.java:50-58 | After a non-empty series of updates the form equals the original updated by the last request alone. No updates leave it unchanged. |
| `FestivalFormEntity.ReplayOnlyLastSeriesMatters` | back/jeonwoochi_spring/microservices/festival-service/src/main/java/com/ssafy/Domain/Entity/FestivalForm.java:50-58 | Because an update overwrites every editable field, a non-empty series of updates gives the same form whatever series was applied before it. |
| `FestivalFormEntity.ReplayIdempotent` | back/jeonwoochi_spring/microservices/festival-service/src/main/java/com/ssafy/Domain/Entity/FestivalForm.java:50-58 | Replaying a series of updates a second time changes nothing. |
| `FestivalFormEntity.FestivalForm.constructor` | back/jeonwoochi_spring/microservices/festival-service/src/main/java/com/ssafy/Domain/Entity/FestivalForm.java:13-20 | The no-argument constructor gives a form with no id. |
| `FestivalFormEntity.FestivalForm.Create` | back/jeonwoochi_spring/microservices/festival-service/src/main/java/com/ssafy/Domain/Entity/FestivalForm.java:38-49 | Returns a newly allocated form whose fields equal `Created(request, userId, imgUrl)`: no id, owner `userId`, image `imgUrl`. |
| `FestivalFormEntity.FestivalForm.Update` | back/jeonwoochi_spring/microservices/festival-service/src/main/java/com/ssafy/Domain/Entity/FestivalForm.java:50-58 | Changes only this form. Its new fields equal `Updated` of its old fields. The id and the owner keep their old values, and the editable fields are the request's. |

## Left out

- Persistence: the database generating `id` (`@GeneratedValue`) is not modelled. `create` leaves the id `None`, and `update` keeps whatever id the form already has.
- Lombok's all-argument constructor and getters are not modelled. They are generated code, and `create` and `update` do not use them.
- Java null: a Java getter may return null, and the form copies it as it copies any other value. The model has no null strings or dates. `None` appears only for the unset id. The owner is a boxed `Long`, so `create(request, null, imgUrl)` stores a null owner; the model's `userId` is an `int` and cannot be null. A null request makes `create` and `update` throw a NullPointerException at their first getter call; the model has no such error path.
- `Long` is modelled as an unbounded `int`. Nothing in the entity does arithmetic on it.
- `java.util.Date` is mutable and the form stores the request's `Date` object itself. The model treats a date as a value, so aliasing between the form and the request is not captured.
- The request classes are not part of this model. They are modelled as plain records with one field for each getter the entity calls.
- The game scene (front/src/game/BootScene.ts) is not part of this model. Its tile collision, spawn-point lookup, overlap callbacks and camera clamping are all calls into the Phaser engine, and its collision callbacks only log to the console. front/src/game/Player.ts, which holds the movement code, is not part of this model.
- The map page (front/src/components/atoms/KakaoMap.tsx) is not part of this model. It renders markers through the Kakao Maps SDK. The route table (front/src/App.tsx) and the Spring Boot bootstrap class are not part of it either.
