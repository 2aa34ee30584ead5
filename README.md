# Portfolio API core, modelled in Dafny

This project models the domain core of a personal portfolio and CV API:
- the validated entities: Project, WorkExperience, Education, Certification, AdditionalTraining, Profile, ContactInformation, SocialNetwork, Tool, ContactMessage and Skill;
- the Phone value object and the URL, e-mail and phone patterns the entities check against;
- the MongoDB repositories for skills, projects and contact messages, including `reorder` and the ordered and paged queries;
- the persistence mappers, between an entity and its stored document, and the generic list helpers of the mapper interface;
- the use cases that add and edit skills, experiences and education, list skills, create and update the single profile, and assemble the complete CV;
- the clamping of `PaginationRequest`.

The model is organised as follows:
- **Entities** (`project.dfy`, `work_experience.dfy`, `education.dfy`, `certification.dfy`, `additional_training.dfy`, `profile.dfy`, `contact_information.dfy`, `social_network.dfy`, `tool.dfy`, `contact_message.dfy`, `skill.dfy`):
  - A record datatype holds the field values.
  - A predicate `Valid…` states every rule the entity's `__post_init__` enforces.
  - A pure function `Construct` runs the checks in source order and returns the first error. Its contract says it succeeds exactly when the coerced record is valid.
  - Each update is a pure function on the fields that returns the new state and an outcome. Lemmas state which arguments are accepted and what changes.
  - A `class` with the entity's fields has methods that assign and then validate, as the source does. A failing update is not rolled back: the assignment stays and the object is left invalid, exactly as in the Python dataclass. Each method's `ensures` ties the new field values to the pure function.
- **Repositories** (`stores.dfy`, `repositories.dfy`):
  - A collection is a map from id to record, held in a class field.
  - Queries return what a MongoDB `find` with `sort` and `to_list(length=100)` returns: distinct stored records, in key order, the first 100 when there are more.
  - `reorder` is the source's two writes: an `update_many` that shifts a range of the profile's indices by one, then an `update_one` that puts the mover at its new index. Lemmas prove it keeps the profile's indices distinct, and keeps an exact numbering 0..n-1 exact.
- **Mappers** (`mappers.dfy`): a document is a map from key to value. For every entity we prove that a valid record survives `to_persistence` followed by `to_domain` unchanged, both one record at a time and as a list.
- **Use cases** (`usecases.dfy`): each is a method over the repositories. Its error cases and its effect on the stored records are stated in full.
- **`pagination.dfy`**: the skip and limit clamping.

Source paths below are relative to the repository root.

## Model

| member | source | states |
|---|---|---|
| Projects.CheckDescription | app/domain/entities/project.py:243-258 | passes exactly when the description is non-blank and 10 to 2000 characters long |
| Projects.CheckSufficiency | app/domain/entities/project.py:260-269 | passes exactly when the project has a non-empty URL or a description of at least 100 characters (RB-PR09) |
| Projects.CheckTechnologies | app/domain/entities/project.py:293-305 | passes exactly when there are at most 20 technologies, each non-blank and at most 50 characters |
| Projects.ValidateUrls | app/domain/entities/project.py:279-291 | a blank URL is coerced to None, other fields untouched; passes exactly when each remaining URL matches URL_PATTERN |
| Projects.Construct | app/domain/entities/project.py:72-81 | succeeds exactly when the URL-coerced record satisfies every rule, and returns that record; a valid record is returned unchanged |
| Projects.ConstructChecksInOrder | app/domain/entities/project.py:72-81 | the first failing check decides the error: profile_id, then title, then description |
| Projects.DescriptionAppliedMeaning | app/domain/entities/project.py:145-157 | the description-and-dates part of `update_info` passes exactly when the given values are acceptable, yields the target fields, and leaves title, URLs and technologies alone |
| Projects.InfoAppliedMeaning | app/domain/entities/project.py:125-157 | `update_info` passes exactly when each given argument is acceptable and the result is consistent; on success exactly the given fields change |
| Projects.InfoUpdatePreservesValid | app/domain/entities/project.py:125-157 | a successful `update_info` keeps a valid project valid |
| Projects.RejectedTitleStays | app/domain/entities/project.py:141-143 | a rejected title is still assigned (no rollback) and the project is then invalid |
| Projects.EndDateNotCleared | app/domain/entities/project.py:152-153 | `update_info` with no end date keeps the current one |
| Projects.EqualDatesRefused | app/domain/entities/project.py:271-277 | an end date equal to the start date is refused |
| Projects.UrlsApplied | app/domain/entities/project.py:159-179 | `update_urls` assigns the given URLs, coerces blanks to None, changes nothing else, and passes exactly when both URLs are well-formed and the description is still sufficient |
| Projects.UrlsUpdatePreservesValid | app/domain/entities/project.py:159-179 | a successful `update_urls` keeps a valid project valid |
| Projects.ClearingUrlsNeedsLongDescription | app/domain/entities/project.py:159-179 | clearing both URLs of a project with a description under 100 characters is refused |
| Projects.TechnologiesReplaced | app/domain/entities/project.py:181-190 | the list is replaced wholesale; passes exactly when the new list is acceptable, and then a valid project stays valid |
| Projects.TechnologyAdded | app/domain/entities/project.py:192-209 | appends exactly when there are fewer than 20 technologies and the new one is non-blank and at most 50 characters; on failure nothing changes |
| Projects.TwentyFirstRefused | app/domain/entities/project.py:199-200 | with 20 technologies, adding one fails with the length error and changes nothing |
| Projects.Project.Init | app/domain/entities/project.py:36-56 | the dataclass fields are the given record |
| Projects.Project.Build | app/domain/entities/project.py:72-81 | an object is returned exactly when `Construct` succeeds, holding its value; otherwise its error |
| Projects.Project.Create | app/domain/entities/project.py:84-123 | builds the record with a new id, `technologies or []` and both timestamps now, then validates it as `Build` |
| Projects.Project.UpdateInfo | app/domain/entities/project.py:125-157 | the new fields and the outcome are those of the `update_info` transition, with updated_at set on success |
| Projects.Project.ApplyInfo | app/domain/entities/project.py:137-156 | the in-place assignments and checks of `update_info` follow the pure transition |
| Projects.Project.ApplyDescription | app/domain/entities/project.py:145-156 | the description-and-dates steps follow the pure transition |
| Projects.Project.ApplyDates | app/domain/entities/project.py:149-156 | the date steps follow the pure transition |
| Projects.Project.ValidateUrlFields | app/domain/entities/project.py:279-291 | `_validate_urls` on the object writes the coerced URLs back, as the pure function does |
| Projects.Project.UpdateUrls | app/domain/entities/project.py:159-179 | the new fields and the outcome are those of the `update_urls` transition |
| Projects.Project.UpdateTechnologies | app/domain/entities/project.py:181-190 | the new fields and the outcome are those of `TechnologiesReplaced` |
| Projects.Project.AddTechnology | app/domain/entities/project.py:192-209 | the new fields and the outcome are those of `TechnologyAdded` |
| Projects.Project.UpdateOrder | app/domain/entities/project.py:211-220 | the order index is assigned and checked, and updated_at set on success |
| Projects.Project.IsOngoing | app/domain/entities/project.py:222-224 | true exactly when there is no end date |
| Projects.Project.HasAnyUrl | app/domain/entities/project.py:226-228 | true exactly when a non-empty live or repo URL is present |
| WorkExperiences.CheckDescription | app/domain/entities/work_experience.py:218-224 | passes exactly when the description, with a blank one read as None, is absent or at most 2000 characters |
| WorkExperiences.CheckResponsibilities | app/domain/entities/work_experience.py:234-249 | passes exactly when there are at most 20 responsibilities, each non-blank and at most 500 characters |
| WorkExperiences.Construct | app/domain/entities/work_experience.py:58-66 | succeeds exactly when the record, with a blank description set to None, satisfies every rule, and returns it; a valid record is returned unchanged |
| WorkExperiences.ConstructChecksInOrder | app/domain/entities/work_experience.py:58-66 | role is checked before company: a blank role reports InvalidRoleError, a good role with a blank company InvalidCompanyError |
| WorkExperiences.DescriptionAppliedMeaning | app/domain/entities/work_experience.py:133-144 | the description-and-dates part of `update_info` passes exactly when the given values are acceptable and then yields the target fields |
| WorkExperiences.CompanyAppliedMeaning | app/domain/entities/work_experience.py:129-144 | the same from the company on |
| WorkExperiences.InfoAppliedMeaning | app/domain/entities/work_experience.py:107-144 | `update_info` passes exactly when every given argument is acceptable and the date range holds; on success exactly the given fields change |
| WorkExperiences.InfoUpdatePreservesValid | app/domain/entities/work_experience.py:107-144 | a successful `update_info` keeps a valid experience valid |
| WorkExperiences.ResponsibilitiesReplaced | app/domain/entities/work_experience.py:146-155 | the list is replaced wholesale; passes exactly when the new list is acceptable, and then a valid experience stays valid |
| WorkExperiences.ResponsibilityAdded | app/domain/entities/work_experience.py:157-180 | appends exactly when there are fewer than 20 items and the new one is non-blank and at most 500 characters; on failure nothing changes |
| WorkExperiences.TwentyFirstRefused | app/domain/entities/work_experience.py:164-168 | with 20 responsibilities, adding one fails with the length error and changes nothing |
| WorkExperiences.EndDateNotCleared | app/domain/entities/work_experience.py:140-141 | `update_info` with no end date keeps the current one |
| WorkExperiences.RejectedCompanyStays | app/domain/entities/work_experience.py:125-131 | a rejected company is still assigned, after the role, and the failure is the company check's |
| WorkExperiences.WorkExperience.Init | app/domain/entities/work_experience.py:32-51 | the dataclass fields are the given record |
| WorkExperiences.WorkExperience.Build | app/domain/entities/work_experience.py:58-66 | an object is returned exactly when `Construct` succeeds, holding its value; otherwise its error |
| WorkExperiences.WorkExperience.Create | app/domain/entities/work_experience.py:69-105 | builds the record with a new id, `responsibilities or []` and both timestamps now, then validates it as `Build` |
| WorkExperiences.WorkExperience.UpdateInfo | app/domain/entities/work_experience.py:107-144 | the new fields and the outcome are those of the `update_info` transition |
| WorkExperiences.WorkExperience.ApplyInfo | app/domain/entities/work_experience.py:125-143 | the in-place assignments and checks follow the pure transition |
| WorkExperiences.WorkExperience.ApplyCompany | app/domain/entities/work_experience.py:129-143 | the steps from the company on follow the pure transition |
| WorkExperiences.WorkExperience.ApplyDescription | app/domain/entities/work_experience.py:133-143 | the steps from the description on follow the pure transition |
| WorkExperiences.WorkExperience.ApplyDates | app/domain/entities/work_experience.py:137-143 | the date steps follow the pure transition |
| WorkExperiences.WorkExperience.UpdateResponsibilities | app/domain/entities/work_experience.py:146-155 | the new fields and the outcome are those of `ResponsibilitiesReplaced` |
| WorkExperiences.WorkExperience.AddResponsibility | app/domain/entities/work_experience.py:157-180 | the new fields and the outcome are those of `ResponsibilityAdded` |
| WorkExperiences.WorkExperience.UpdateOrder | app/domain/entities/work_experience.py:182-191 | the order index is assigned and checked, and updated_at set on success |
| WorkExperiences.WorkExperience.IsCurrentPosition | app/domain/entities/work_experience.py:193-195 | true exactly when there is no end date |
| Educations.Construct | app/domain/entities/education.py:56-64 | succeeds exactly when the record, with a blank description set to None, satisfies every rule, and returns it; a valid record is returned unchanged |
| Educations.ConstructChecksInOrder | app/domain/entities/education.py:56-64 | the first failing check decides the error: profile_id, then institution, then the later fields |
| Educations.InstitutionLengthBoundary | app/domain/entities/education.py:170-178 | a non-blank institution passes exactly when it has at most 100 characters; one character more reports InvalidLengthError |
| Educations.WhitespaceDescriptionDropped | app/domain/entities/education.py:196-204 | a whitespace-only description is stored as None |
| Educations.DateRangeRule | app/domain/entities/education.py:206-209 | with the other fields valid, no end date is accepted and an end date not after the start date is refused |
| Educations.FieldAppliedMeaning | app/domain/entities/education.py:133-148 | the part of `update_info` from the field on passes exactly when the given values are acceptable, and then yields the target fields |
| Educations.DegreeAppliedMeaning | app/domain/entities/education.py:129-148 | the same from the degree on |
| Educations.InfoAppliedMeaning | app/domain/entities/education.py:105-148 | `update_info` passes exactly when every given argument is acceptable and the date range holds; on success exactly the given fields change |
| Educations.InfoUpdatePreservesValid | app/domain/entities/education.py:105-148 | a successful `update_info` keeps a valid education valid |
| Educations.WhitespaceDescriptionDroppedOnUpdate | app/domain/entities/education.py:137-139 | a whitespace-only description given to `update_info` leaves the description None |
| Educations.UpdatesKeepCreation | app/domain/entities/education.py:105-159 | neither `update_info` nor `update_order` changes created_at, and a successful reorder sets updated_at |
| Educations.Education.Init | app/domain/entities/education.py:31-50 | the dataclass fields are the given record |
| Educations.Education.Build | app/domain/entities/education.py:56-64 | an object is returned exactly when `Construct` succeeds, holding its value; otherwise its error |
| Educations.Education.Create | app/domain/entities/education.py:67-103 | builds the record with a new id and both timestamps now, then validates it as `Build` |
| Educations.Education.UpdateInfo | app/domain/entities/education.py:105-148 | the new fields and the outcome are those of the `update_info` transition |
| Educations.Education.ApplyInfo | app/domain/entities/education.py:125-147 | the in-place assignments and checks follow the pure transition |
| Educations.Education.ApplyDegree | app/domain/entities/education.py:129-147 | the steps from the degree on follow the pure transition |
| Educations.Education.ApplyField | app/domain/entities/education.py:133-147 | the steps from the field on follow the pure transition |
| Educations.Education.ApplyDescription | app/domain/entities/education.py:137-147 | the steps from the description on follow the pure transition |
| Educations.Education.ApplyDates | app/domain/entities/education.py:141-147 | the date steps follow the pure transition |
| Educations.Education.UpdateOrder | app/domain/entities/education.py:150-159 | the order index is assigned and checked, and updated_at set on success |
| Educations.Education.IsOngoing | app/domain/entities/education.py:161-163 | true exactly when there is no end date |
| Certifications.Construct | app/domain/entities/certification.py:66-74 | succeeds exactly when the record, with a blank credential id or URL set to None, satisfies every rule, and returns it; a valid record is returned unchanged |
| Certifications.ConstructChecksInOrder | app/domain/entities/certification.py:66-74 | title is checked before issuer, and with valid texts an expiry date not after the issue date reports InvalidDateRangeError |
| Certifications.CredentialIdAppliedMeaning | app/domain/entities/certification.py:149-158 | the credential part of `update_info` passes exactly when the given values are acceptable, and then yields the target fields |
| Certifications.IssuerAppliedMeaning | app/domain/entities/certification.py:139-158 | the same from the issuer on |
| Certifications.InfoAppliedMeaning | app/domain/entities/certification.py:115-158 | `update_info` passes exactly when every given argument is acceptable and the date range holds; on success exactly the given fields change |
| Certifications.InfoUpdatePreservesValid | app/domain/entities/certification.py:115-158 | a successful `update_info` keeps a valid certification valid |
| Certifications.RejectedUrlStays | app/domain/entities/certification.py:153-155 | a malformed credential URL is still assigned when it is refused |
| Certifications.ExpiryNotCleared | app/domain/entities/certification.py:146-147 | `update_info` with no expiry date keeps the current one |
| Certifications.ExpiryIsMonotone | app/domain/entities/certification.py:171-175 | with no expiry nothing is expired; once expired, it stays expired later; expiry starts strictly after the expiry date |
| Certifications.NotExpiredWhenIssued | app/domain/entities/certification.py:171-175 | a valid certification is not expired at its issue date |
| Certifications.Certification.Init | app/domain/entities/certification.py:34-53 | the dataclass fields are the given record |
| Certifications.Certification.Build | app/domain/entities/certification.py:66-74 | an object is returned exactly when `Construct` succeeds, holding its value; otherwise its error |
| Certifications.Certification.Create | app/domain/entities/certification.py:77-113 | builds the record with a new id and both timestamps now, then validates it as `Build` |
| Certifications.Certification.UpdateInfo | app/domain/entities/certification.py:115-158 | the new fields and the outcome are those of the `update_info` transition |
| Certifications.Certification.ApplyInfo | app/domain/entities/certification.py:135-157 | the in-place assignments and checks follow the pure transition |
| Certifications.Certification.ApplyIssuer | app/domain/entities/certification.py:139-157 | the steps from the issuer on follow the pure transition |
| Certifications.Certification.AssignDates | app/domain/entities/certification.py:143-157 | the date assignments and the later steps follow the pure transition |
| Certifications.Certification.ApplyCredentialId | app/domain/entities/certification.py:149-157 | the credential steps follow the pure transition |
| Certifications.Certification.ApplyCredentialUrl | app/domain/entities/certification.py:153-157 | the credential URL step follows the pure transition |
| Certifications.Certification.UpdateOrder | app/domain/entities/certification.py:160-169 | the order index is assigned and checked, and updated_at set on success |
| Certifications.Certification.IsExpired | app/domain/entities/certification.py:171-175 | true exactly when there is an expiry date and the given clock is past it |
| Certifications.Certification.HasNoExpiry | app/domain/entities/certification.py:177-179 | true exactly when there is no expiry date, and then it is never expired |
| AdditionalTrainings.Construct | app/domain/entities/additional_training.py:66-74 | succeeds exactly when the record, with blank optional texts set to None, satisfies every rule, and returns it; a valid record is returned unchanged |
| AdditionalTrainings.ConstructChecksInOrder | app/domain/entities/additional_training.py:66-74 | title is checked before provider |
| AdditionalTrainings.DurationAppliedMeaning | app/domain/entities/additional_training.py:146-158 | the part of `update_info` from the duration on passes exactly when the given values are acceptable, and then yields the target fields |
| AdditionalTrainings.ProviderAppliedMeaning | app/domain/entities/additional_training.py:139-158 | the same from the provider on |
| AdditionalTrainings.InfoAppliedMeaning | app/domain/entities/additional_training.py:115-158 | `update_info` passes exactly when every given argument is acceptable; on success exactly the given fields change |
| AdditionalTrainings.InfoUpdatePreservesValid | app/domain/entities/additional_training.py:115-158 | a successful `update_info` keeps a valid training valid |
| AdditionalTrainings.CompletionDateAlwaysAccepted | app/domain/entities/additional_training.py:143-144 | a new completion date is never checked: it is assigned and the update succeeds |
| AdditionalTrainings.AdditionalTraining.Init | app/domain/entities/additional_training.py:33-52 | the dataclass fields are the given record |
| AdditionalTrainings.AdditionalTraining.Build | app/domain/entities/additional_training.py:66-74 | an object is returned exactly when `Construct` succeeds, holding its value; otherwise its error |
| AdditionalTrainings.AdditionalTraining.Create | app/domain/entities/additional_training.py:77-113 | builds the record with a new id and both timestamps now, then validates it as `Build` |
| AdditionalTrainings.AdditionalTraining.UpdateInfo | app/domain/entities/additional_training.py:115-158 | the new fields and the outcome are those of the `update_info` transition |
| AdditionalTrainings.AdditionalTraining.ApplyInfo | app/domain/entities/additional_training.py:135-156 | the in-place assignments and checks follow the pure transition |
| AdditionalTrainings.AdditionalTraining.ApplyProvider | app/domain/entities/additional_training.py:139-156 | the steps from the provider on follow the pure transition |
| AdditionalTrainings.AdditionalTraining.ApplyDuration | app/domain/entities/additional_training.py:146-156 | the steps from the duration on follow the pure transition |
| AdditionalTrainings.AdditionalTraining.ApplyCertificate | app/domain/entities/additional_training.py:150-156 | the steps from the certificate URL on follow the pure transition |
| AdditionalTrainings.AdditionalTraining.UpdateOrder | app/domain/entities/additional_training.py:160-169 | the order index is assigned and checked, and updated_at set on success |
| Profiles.Construct | app/domain/entities/profile.py:61-67 | succeeds exactly when the record, with blank bio, location and avatar set to None, satisfies every rule, and returns it; a valid record is returned unchanged |
| Profiles.ConstructChecksInOrder | app/domain/entities/profile.py:61-67 | name is checked before headline and headline before bio; a bio over the limit reports InvalidLengthError |
| Profiles.InvalidAvatarRefused | app/domain/entities/profile.py:178-184 | an avatar URL "not-a-url" is refused with InvalidURLError |
| Profiles.Marked | app/domain/entities/profile.py:186-188 | `_mark_as_updated` after a step: the fields and outcome are the step's, id and created_at are kept, updated_at is now on success |
| Profiles.BasicInfoAppliedMeaning | app/domain/entities/profile.py:99-131 | `update_basic_info` passes exactly when each given argument is acceptable, then yields the target fields, and never touches the avatar |
| Profiles.BasicInfoUpdatePreservesValid | app/domain/entities/profile.py:99-131 | a successful `update_basic_info` keeps a valid profile valid |
| Profiles.AvatarUpdated | app/domain/entities/profile.py:133-142 | the avatar is assigned, a blank one coerced to None; passes exactly when what remains is a valid URL; None clears the avatar; a valid profile stays valid |
| Profiles.Profile.Init | app/domain/entities/profile.py:29-46 | the dataclass fields are the given record |
| Profiles.Profile.Build | app/domain/entities/profile.py:61-67 | an object is returned exactly when `Construct` succeeds, holding its value; otherwise its error |
| Profiles.Profile.Create | app/domain/entities/profile.py:70-97 | builds the record with a new id and both timestamps now, then validates it as `Build` |
| Profiles.Profile.UpdateBasicInfo | app/domain/entities/profile.py:99-131 | the new fields and the outcome are those of the `update_basic_info` transition |
| Profiles.Profile.ApplyHeadline | app/domain/entities/profile.py:119-129 | the steps from the headline on follow the pure transition |
| Profiles.Profile.ApplyBio | app/domain/entities/profile.py:123-129 | the steps from the bio on follow the pure transition |
| Profiles.Profile.UpdateAvatar | app/domain/entities/profile.py:133-142 | the new fields and the outcome are those of `AvatarUpdated` |
| SocialNetworks.CheckRequiredUrl | app/domain/entities/social_network.py:148-154 | passes exactly when the URL is non-blank and well-formed; blank reports EmptyFieldError, malformed InvalidURLError |
| SocialNetworks.Construct | app/domain/entities/social_network.py:58-64 | succeeds exactly when the record, with a blank username set to None, satisfies every rule, and returns it; a valid record is returned unchanged |
| SocialNetworks.ConstructChecksInOrder | app/domain/entities/social_network.py:58-64 | platform, then url, then order_index decide the error |
| SocialNetworks.InfoAppliedMeaning | app/domain/entities/social_network.py:96-122 | `update_info` passes exactly when each given argument is acceptable; on success exactly the given fields change |
| SocialNetworks.InfoUpdatePreservesValid | app/domain/entities/social_network.py:96-122 | a successful `update_info` keeps a valid network valid |
| SocialNetworks.RejectedUrlStays | app/domain/entities/social_network.py:114-116 | a refused URL is still assigned and the network is then invalid |
| SocialNetworks.SocialNetwork.Init | app/domain/entities/social_network.py:30-46 | the dataclass fields are the given record |
| SocialNetworks.SocialNetwork.Build | app/domain/entities/social_network.py:58-64 | an object is returned exactly when `Construct` succeeds, holding its value; otherwise its error |
| SocialNetworks.SocialNetwork.Create | app/domain/entities/social_network.py:67-94 | builds the record with a new id and both timestamps now, then validates it as `Build` |
| SocialNetworks.SocialNetwork.UpdateInfo | app/domain/entities/social_network.py:96-122 | the new fields and the outcome are those of the `update_info` transition |
| SocialNetworks.SocialNetwork.UpdateOrder | app/domain/entities/social_network.py:124-133 | the order index is assigned and checked, and updated_at set on success |
| Tools.Construct | app/domain/entities/tool.py:60-66 | succeeds exactly when the record, with a blank icon URL set to None, satisfies every rule, and returns it; a valid record is returned unchanged |
| Tools.ConstructChecksInOrder | app/domain/entities/tool.py:60-66 | name is checked before category; a category over the limit reports InvalidLengthError |
| Tools.InfoAppliedMeaning | app/domain/entities/tool.py:98-124 | `update_info` passes exactly when each given argument is acceptable; on success exactly the given fields change |
| Tools.InfoUpdatePreservesValid | app/domain/entities/tool.py:98-124 | a successful `update_info` keeps a valid tool valid |
| Tools.IconRemoved | app/domain/entities/tool.py:137-140 | `remove_icon` clears the icon, sets updated_at and changes nothing else; a valid tool stays valid |
| Tools.RemoveIconIdempotent | app/domain/entities/tool.py:137-140 | removing the icon twice is removing it once |
| Tools.Tool.Init | app/domain/entities/tool.py:31-47 | the dataclass fields are the given record |
| Tools.Tool.Build | app/domain/entities/tool.py:60-66 | an object is returned exactly when `Construct` succeeds, holding its value; otherwise its error |
| Tools.Tool.Create | app/domain/entities/tool.py:69-96 | builds the record with a new id and both timestamps now, then validates it as `Build` |
| Tools.Tool.UpdateInfo | app/domain/entities/tool.py:98-124 | the new fields and the outcome are those of the `update_info` transition |
| Tools.Tool.UpdateOrder | app/domain/entities/tool.py:126-135 | the order index is assigned and checked, and updated_at set on success |
| Tools.Tool.RemoveIcon | app/domain/entities/tool.py:137-140 | the new fields are those of `IconRemoved` |
| ContactInfos.StripSeparators | app/domain/entities/contact_information.py:176 | the result has no space, hyphen or parenthesis left and is no longer than the input |
| ContactInfos.StripAppend | app/domain/entities/contact_information.py:176 | removing separators distributes over concatenation |
| ContactInfos.StripKeeps | app/domain/entities/contact_information.py:176 | a string with no separator is unchanged by the removal |
| ContactInfos.SeparatorIgnored | app/domain/entities/contact_information.py:176-177 | a separator anywhere in the phone does not change what is matched against PHONE_PATTERN |
| ContactInfos.CheckPhone | app/domain/entities/contact_information.py:169-178 | passes exactly when the phone, a blank one read as None, is absent or matches PHONE_PATTERN once separators are removed; otherwise InvalidPhoneError with the phone as given |
| ContactInfos.Construct | app/domain/entities/contact_information.py:64-71 | succeeds exactly when the record, with blank optional fields set to None, satisfies every rule, and returns it; a valid record is returned unchanged |
| ContactInfos.PhoneKeptAsWritten | app/domain/entities/contact_information.py:169-178 | an accepted phone is stored with its separators, and the stripped digits match the E.164 pattern |
| ContactInfos.Marked | app/domain/entities/contact_information.py:204-206 | `_mark_as_updated` after a step: fields and outcome are the step's, id, profile_id and created_at kept, updated_at now on success |
| ContactInfos.EmailUpdated | app/domain/entities/contact_information.py:106-115 | the email is replaced and checked; a valid record stays valid on success and is invalid on failure |
| ContactInfos.PhoneUpdated | app/domain/entities/contact_information.py:117-126 | the phone is replaced, a blank one coerced to None; passes exactly when the phone is acceptable; None clears it |
| ContactInfos.LinksApplied | app/domain/entities/contact_information.py:128-154 | `update_social_links` never touches the email or the phone |
| ContactInfos.GithubApplied | app/domain/entities/contact_information.py:146-154 | the steps from github on never touch email, phone or linkedin |
| ContactInfos.LinksAppliedMeaning | app/domain/entities/contact_information.py:128-154 | `update_social_links` passes exactly when each given link is acceptable, and then exactly the given links change, blanks coerced to None |
| ContactInfos.LinksUpdatePreservesValid | app/domain/entities/contact_information.py:128-154 | a successful `update_social_links` keeps valid contact information valid |
| ContactInfos.ContactInformation.Init | app/domain/entities/contact_information.py:30-48 | the dataclass fields are the given record |
| ContactInfos.ContactInformation.Build | app/domain/entities/contact_information.py:64-71 | an object is returned exactly when `Construct` succeeds, holding its value; otherwise its error |
| ContactInfos.ContactInformation.Create | app/domain/entities/contact_information.py:74-104 | builds the record with a new id and both timestamps now, then validates it as `Build` |
| ContactInfos.ContactInformation.UpdateEmail | app/domain/entities/contact_information.py:106-115 | the new fields and the outcome are those of `EmailUpdated` |
| ContactInfos.ContactInformation.UpdatePhone | app/domain/entities/contact_information.py:117-126 | the new fields and the outcome are those of `PhoneUpdated` |
| ContactInfos.ContactInformation.UpdateSocialLinks | app/domain/entities/contact_information.py:128-154 | the new fields and the outcome are those of the `update_social_links` transition |
| ContactMessages.CheckMessage | app/domain/entities/contact_message.py:132-147 | passes exactly when the message is non-blank and 10 to 2000 characters; blank, too short and too long each report their own error |
| ContactMessages.CheckStatus | app/domain/entities/contact_message.py:149-155 | passes exactly for "pending", "read" and "replied"; any other status is reported back |
| ContactMessages.Construct | app/domain/entities/contact_message.py:58-63 | succeeds exactly when the record is valid, and then returns it unchanged |
| ContactMessages.MessageLengthBoundaries | app/domain/entities/contact_message.py:132-147 | 10 and 2000 characters are accepted, 9 and 2001 refused with the matching length error |
| ContactMessages.UnknownStatusRefused | app/domain/entities/contact_message.py:149-155 | an otherwise valid message with status "archived" is refused |
| ContactMessages.NewRecord | app/domain/entities/contact_message.py:66-88 | `create` starts pending, unread, unreplied, created now |
| ContactMessages.MarkedRead | app/domain/entities/contact_message.py:90-94 | a pending message becomes read with read_at now; any other message is unchanged |
| ContactMessages.MarkedReplied | app/domain/entities/contact_message.py:96-102 | a pending or read message becomes replied with replied_at now and read_at filled in if missing; a replied one is unchanged |
| ContactMessages.Rank | app/domain/entities/contact_message.py:104-114 | the lifecycle position, at most 2, and 2 exactly for replied |
| ContactMessages.CreatedIsCoherent | app/domain/entities/contact_message.py:66-88 | a new message satisfies the lifecycle invariant (timestamps present exactly as the status requires) |
| ContactMessages.TransitionsKeepLifecycle | app/domain/entities/contact_message.py:90-102 | marking read or replied keeps the lifecycle invariant and validity, and never moves the status backwards |
| ContactMessages.RepliedIsFinal | app/domain/entities/contact_message.py:96-102 | after `mark_as_replied` the status is replied and no later mark changes anything |
| ContactMessages.MarkReadIdempotent | app/domain/entities/contact_message.py:90-94 | marking read twice is marking read once |
| ContactMessages.ReadAtBackFilled | app/domain/entities/contact_message.py:96-102 | replying to an unread pending message sets read_at to replied_at; replying to a read one keeps its read_at |
| ContactMessages.QueriesPartition | app/domain/entities/contact_message.py:104-114 | for a valid status exactly one of pending and read holds, replied implies read, and read means rank at least 1 |
| ContactMessages.ContactMessage.Init | app/domain/entities/contact_message.py:34-50 | the dataclass fields are the given record |
| ContactMessages.ContactMessage.Build | app/domain/entities/contact_message.py:58-63 | an object is returned exactly when the record is valid, holding it; otherwise the first error |
| ContactMessages.ContactMessage.Create | app/domain/entities/contact_message.py:66-88 | builds the pending record with a new id and validates it as `Build` |
| ContactMessages.ContactMessage.MarkAsRead | app/domain/entities/contact_message.py:90-94 | the new fields are those of `MarkedRead` |
| ContactMessages.ContactMessage.MarkAsReplied | app/domain/entities/contact_message.py:96-102 | the new fields are those of `MarkedReplied` |
| ContactMessages.ContactMessage.IsPendingNow | app/domain/entities/contact_message.py:104-106 | true exactly when the status is pending |
| ContactMessages.ContactMessage.IsReadNow | app/domain/entities/contact_message.py:108-110 | true exactly when the status is read or replied |
| ContactMessages.ContactMessage.IsRepliedNow | app/domain/entities/contact_message.py:112-114 | true exactly when the status is replied |
| Skills.CheckCategory | tests/unit/domain/entities/test_skill.py:65-73 | passes exactly when the category is non-blank |
| Skills.CheckLevel | tests/unit/domain/value_objects/test_skill_level.py:14-40 | passes exactly when the level is absent or one of the four levels; otherwise InvalidSkillLevelError with the level |
| Skills.Construct | tests/unit/domain/entities/test_skill.py:14-89 | succeeds exactly when the record is valid, and then returns it unchanged |
| Skills.LongNameAndUnknownLevelRefused | tests/unit/domain/entities/test_skill.py:55-89 | a 51-character name and a level such as "master" are refused with the errors the unit tests expect |
| Skills.LevelExamples | tests/unit/domain/value_objects/test_skill_level.py:14-40 | "basic" and "expert" are levels, "master" and "" are not |
| Skills.InfoAppliedMeaning | tests/unit/domain/entities/test_skill.py:91-103 | `update_info` passes exactly when each given argument is acceptable, and then exactly the given fields change |
| Skills.InfoUpdatePreservesValid | tests/unit/domain/entities/test_skill.py:91-103 | a successful `update_info` keeps a valid skill valid |
| Skills.Skill.Init | tests/unit/domain/entities/test_skill.py:14-25 | the fields are the given record |
| Skills.Skill.Build | tests/unit/domain/entities/test_skill.py:14-89 | an object is returned exactly when the record is valid, holding it; otherwise the first error |
| Skills.Skill.Create | tests/unit/domain/entities/test_skill.py:14-37 | builds the record with a new id and both timestamps now, then validates it as `Build` |
| Skills.Skill.UpdateInfo | tests/unit/domain/entities/test_skill.py:91-103 | the new fields and the outcome are those of the `update_info` transition |
| Common.Then | app/domain/entities/project.py:72-81 | two checks in sequence pass exactly when both pass, and an earlier failure is the one reported |
| Common.Touched | app/domain/entities/project.py:312-314 | `_mark_as_updated` after a step: fields and outcome are the step's, identity, placement and created_at are kept, updated_at is now exactly on success |
| Common.BlankToNone | app/domain/entities/work_experience.py:218-224 | a blank optional text becomes None and any other value is kept |
| Common.PickOpt | app/domain/entities/project.py:152-153 | `if x is not None: self.f = x` for an optional field: None keeps the current value |
| Common.CheckRequiredText | app/domain/entities/project.py:235-241 | passes exactly when the text is non-blank and within its maximum length; blank reports the field's own error |
| Common.CheckOptionalText | app/domain/entities/profile.py:160-166 | passes exactly when an absent or non-blank text is within its maximum length |
| Common.CheckCoercedText | app/domain/entities/work_experience.py:218-224 | passes exactly when the text, blank read as None, is absent or within its maximum length; otherwise InvalidLengthError |
| Common.CheckItems | app/domain/entities/project.py:298-305 | passes exactly when every item is non-blank and within its length; a failure names the item field |
| Common.CheckList | app/domain/entities/project.py:293-305 | passes exactly when the list is within its size and every item is acceptable; too many items reports the list's length error |
| Common.CheckAppend | app/domain/entities/project.py:192-209 | appending passes exactly when the list has room and the item is acceptable |
| Common.CheckProfileId | app/domain/entities/project.py:230-233 | passes exactly when profile_id is non-blank |
| Common.CheckOrderIndex | app/domain/entities/project.py:307-310 | passes exactly when order_index is not negative |
| Common.CheckDateRange | app/domain/entities/project.py:271-277 | passes exactly when there is no end date or it is strictly after the start date |
| Common.Reindexed | app/domain/entities/project.py:211-220 | `update_order` assigns the index even when it is refused, passes exactly for a non-negative index, sets updated_at on success and otherwise changes nothing |
| Patterns.LowerEqualsIgnoreCase | app/domain/entities/project.py:63-70 | a text without capitals matches itself under IGNORECASE |
| Patterns.CheckUrl | app/domain/entities/project.py:279-291 | a non-blank URL passes exactly when it matches URL_PATTERN; otherwise InvalidURLError with the URL |
| Patterns.CheckCoercedUrl | app/domain/entities/profile.py:178-184 | passes exactly when the URL, blank read as None, is absent or matches URL_PATTERN |
| Patterns.CheckEmail | app/domain/entities/contact_information.py:161-167 | passes exactly when the e-mail is non-blank and matches EMAIL_PATTERN; blank reports EmptyFieldError, malformed InvalidEmailError |
| Patterns.UrlRefused | app/domain/entities/project.py:63-70 | "not-a-url" does not match URL_PATTERN |
| Patterns.AuthoritySplit | app/domain/entities/project.py:63-70 | a host, an optional port and a path make up the part after the scheme |
| Patterns.SchemeThenAuthority | app/domain/entities/project.py:63-70 | an http scheme in any case followed by such a part matches the core of the pattern |
| Patterns.HttpUrl | app/domain/entities/project.py:63-70 | "http://" followed by a valid host, port and path matches URL_PATTERN |
| Patterns.HttpSchemeMatches | app/domain/entities/project.py:63-70 | the literal scheme "http://" matches itself under IGNORECASE |
| Patterns.LocalhostAccepted | app/domain/entities/project.py:63-70 | "localhost" with an optional port and path is a valid host part |
| Patterns.DocsUrlAccepted | app/domain/entities/project.py:63-70 | "http://localhost:8000/docs" matches URL_PATTERN |
| Patterns.EmailAccepted | app/domain/entities/contact_information.py:49-51 | a local part, "@", a domain, "." and a top-level domain of at least two letters match EMAIL_PATTERN |
| Patterns.PlainEmailAccepted | app/domain/entities/contact_information.py:49-51 | "john@example.com" matches EMAIL_PATTERN |
| Patterns.EmailRefused | app/domain/entities/contact_information.py:49-51 | "john.example.com", without "@", does not match |
| Patterns.E164Examples | app/domain/entities/contact_information.py:52-54 | "+15551234567" matches PHONE_PATTERN and "+0612345678" does not |
| PhoneNumbers.Normalize | app/domain/value_objects/phone.py:158-180 | keeps only digits and '+' signs, so the result is no longer than the input |
| PhoneNumbers.ValidateMeansE164 | app/domain/value_objects/phone.py:182-197 | for non-blank input the checks of `_validate` pass exactly when the normalised number is E.164 |
| PhoneNumbers.Create | app/domain/value_objects/phone.py:47-69 | succeeds exactly on non-blank input whose normalised form is E.164, holding that form; blank input reports EmptyFieldError, any other failure InvalidPhoneError with the original text |
| PhoneNumbers.TryCreate | app/domain/value_objects/phone.py:72-85 | None exactly when `create` raises, otherwise the phone `create` returns |
| PhoneNumbers.NormalizeAppend | app/domain/value_objects/phone.py:158-180 | normalising a concatenation normalises each part |
| PhoneNumbers.NormalizeKeeps | app/domain/value_objects/phone.py:158-180 | text made only of digits and '+' is left unchanged |
| PhoneNumbers.NormalizeIdempotent | app/domain/value_objects/phone.py:158-180 | normalising twice is normalising once |
| PhoneNumbers.NormalizeGroups | app/domain/value_objects/phone.py:136-156 | normalising digits grouped in threes gives the digits back |
| PhoneNumbers.ValidPhoneParts | app/domain/value_objects/phone.py:100-134 | the country code is three digits for numbers of 11 or more characters and two otherwise, and "+", code and national number put back together give the number |
| PhoneNumbers.NormalizeFormatted | app/domain/value_objects/phone.py:136-156 | normalising the international form drops exactly the spaces it added |
| PhoneNumbers.FormatRoundTrip | app/domain/value_objects/phone.py:136-156 | creating a phone from the international form of a valid phone gives the same phone |
| PhoneNumbers.CreateOnNormalForm | app/domain/value_objects/phone.py:47-69 | on text that is already normalised, `create` keeps it exactly when it is E.164 |
| PhoneNumbers.ShortestAccepted | tests/unit/domain/value_objects/test_phone.py:51-55 | "+12" is accepted unchanged |
| PhoneNumbers.BlankRefused | tests/unit/domain/value_objects/test_phone.py:83-93 | "" and blanks are refused with EmptyFieldError |
| PhoneNumbers.LeadingZeroRefused | tests/unit/domain/value_objects/test_phone.py:122-125 | "+0612345678" is refused with InvalidPhoneError |
| PhoneNumbers.MissingPlusRefused | tests/unit/domain/value_objects/test_phone.py:95-98 | "34612345678" is refused with InvalidPhoneError |
| PhoneNumbers.SpanishNumberAccepted | tests/unit/domain/value_objects/test_phone.py:26-31 | "+34612345678" is accepted unchanged |
| PhoneNumbers.SpanishNumberParts | tests/unit/domain/value_objects/test_phone.py:184-210 | its country code is "346" and its national number "12345678", as the tests pin down |
| PhoneNumbers.FormatOfParts | app/domain/value_objects/phone.py:136-156 | the international form is "+", the country code, a space and the national number in groups of three |
| PhoneNumbers.GroupsOfEight | app/domain/value_objects/phone.py:150-152 | eight digits are grouped three, three and two |
| PhoneNumbers.EqualIffSameNormalForm | app/domain/value_objects/phone.py:208-216 | two phones from accepted inputs are equal iff the inputs have the same normalised value, so spacing and punctuation never matter |
| Stores.Collect | app/infrastructure/repositories/skill_repository.py:60-62 | `find(filter).to_list(length=100)`: the result holds distinct matching documents, each the one stored under its id; it has min(matches, limit) elements, and when the matches fit the limit every matching document is in it |
| Stores.SortBy | app/infrastructure/repositories/skill_repository.py:89-91 | `cursor.sort(key, 1 or -1)`: the output is a permutation of the input, sorted by the key ascending or descending, and a duplicate-free input stays duplicate-free |
| Stores.SortAll | app/infrastructure/repositories/skill_repository.py:89-91 | sorting every matching document: distinct, sorted, exactly the matches' size, and it holds exactly the matching documents |
| Stores.FirstSorted | app/infrastructure/repositories/skill_repository.py:86-93 | sort then `to_list(length=100)`: distinct, sorted, min(matches, 100) long, only matching documents, all of them when they fit; every document left out sorts after every document kept |
| Stores.ReorderEffect | app/infrastructure/repositories/skill_repository.py:95-126 | a real move (known id, changed index): the same ids; the mover takes the new index; a document of the profile in (old, new] moves down by one, or in [new, old) moves up by one; every other document is unchanged; only `order_index` ever changes |
| Stores.ReorderNoOp | app/infrastructure/repositories/skill_repository.py:98-104 | an unknown entity id, or a new index equal to the old one, leaves the collection as it was |
| Stores.ReorderKeepsMembers | app/infrastructure/repositories/skill_repository.py:95-126 | a reorder never adds, removes or moves documents between profiles |
| Stores.ReorderKeepsDistinct | app/infrastructure/repositories/skill_repository.py:95-126 | moving a document of the profile keeps that profile's indices pairwise distinct |
| Stores.ReorderKeepsDense | app/infrastructure/repositories/project_repository.py:83-114 | when the profile's n indices are exactly 0..n-1, moving one of its documents to an index in 0..n-1 keeps them exactly 0..n-1 |
| Stores.DenseCoversAll | app/infrastructure/repositories/project_repository.py:64-72 | in a dense numbering every index 0..n-1 is held by some document of the profile, so `get_by_order_index` finds one for every index in range |
| Repositories.FoundInPermuted | app/application/use_cases/skill/list_skills.py:48-57 | re-sorting a query result in memory keeps it a valid result of the same query |
| Repositories.OrderedRepository.Empty | app/infrastructure/repositories/skill_repository.py:15-18 | a new repository has an empty collection in which every document is keyed by its id |
| Repositories.OrderedRepository.Add | app/infrastructure/repositories/skill_repository.py:20-23 | `insert_one`: when the id is new, the document is stored under its id and the result says so; otherwise the collection is unchanged; keying by id is kept |
| Repositories.OrderedRepository.Update | app/infrastructure/repositories/skill_repository.py:25-28 | `replace_one({"_id": id})`: replaces the stored document with that id and changes nothing when there is none; keying by id is kept |
| Repositories.OrderedRepository.Delete | app/infrastructure/repositories/skill_repository.py:30-32 | `delete_one`: the result is true iff the id was stored, and afterwards exactly that id is gone |
| Repositories.OrderedRepository.GetById | app/infrastructure/repositories/skill_repository.py:34-38 | `find_one({"_id": id})`: the document stored under id, and None iff none is stored |
| Repositories.OrderedRepository.GetByOrderIndex | app/infrastructure/repositories/skill_repository.py:76-84 | `find_one({"profile_id", "order_index"})`: None iff no document of the profile holds that index; otherwise a stored document of the profile with that index |
| Repositories.OrderedRepository.FindByProfile | app/infrastructure/repositories/skill_repository.py:60-62 | `find_by(profile_id=p)`: at most 100 distinct stored documents of the profile, all of them when they fit |
| Repositories.OrderedRepository.GetAllOrdered | app/infrastructure/repositories/skill_repository.py:86-93 | the first 100 documents of the profile by `order_index`, ascending or descending; the result is sorted and anything left out comes after everything kept |
| Repositories.OrderedRepository.Reorder | app/infrastructure/repositories/skill_repository.py:95-126 | the collection becomes the range-shifted reorder of the old one (see Stores.ReorderEffect), and keying by id is kept |
| Repositories.ExistsByName | app/infrastructure/repositories/skill_repository.py:64-68 | true iff the profile has a skill with exactly that name |
| Repositories.GetByName | app/infrastructure/repositories/skill_repository.py:70-74 | None iff the profile has no skill with that exact name; otherwise a stored skill of the profile with that name |
| Repositories.FindByCategory | app/infrastructure/repositories/skill_repository.py:60-62 | `find_by(profile_id=p, category=c)`: at most 100 distinct stored skills of that profile and category, all of them when they fit |
| Repositories.ProfileRepository.Empty | app/shared/interfaces/repository.py:237-243 | a new profile store is empty and keyed by id |
| Repositories.ProfileRepository.GetProfile | app/shared/interfaces/repository.py:246-256 | None iff no profile is stored; otherwise a stored profile |
| Repositories.ProfileRepository.ProfileExists | app/shared/interfaces/repository.py:259-269 | true iff some profile is stored |
| Repositories.ProfileRepository.Add | app/shared/interfaces/repository.py:68-88 | stores a profile under a new id and reports whether it did; an existing id leaves the store unchanged |
| Repositories.ProfileRepository.Update | app/shared/interfaces/repository.py:91-111 | replaces the stored profile with that id and changes nothing when there is none |
| Repositories.StoredReplied | app/infrastructure/repositories/contact_message_repository.py:90-102 | the `$set` of `mark_as_replied`: status replied and both `replied_at` and `read_at` set to now; every other field is kept |
| Repositories.StoredRepliedVersusEntity | app/infrastructure/repositories/contact_message_repository.py:90-102 | the repository update equals the entity's `mark_as_replied` iff the message had no `read_at` (or it already equalled now): the repository overwrites an earlier read time |
| Repositories.StoredRepliedKeepsCoherent | app/infrastructure/repositories/contact_message_repository.py:90-102 | the repository's reply update keeps the lifecycle invariant (status and timestamps agree), and keeps a valid message valid |
| Repositories.MessageRepository.Empty | app/infrastructure/repositories/contact_message_repository.py:16-19 | a new repository has an empty collection keyed by id |
| Repositories.MessageRepository.Add | app/infrastructure/repositories/contact_message_repository.py:21-24 | a message is stored under a new id and the result says so; an existing id leaves the collection unchanged |
| Repositories.MessageRepository.Update | app/infrastructure/repositories/contact_message_repository.py:26-29 | replaces the stored message with that id and changes nothing when there is none |
| Repositories.MessageRepository.Delete | app/infrastructure/repositories/contact_message_repository.py:31-33 | true iff the id was stored; afterwards exactly that id is gone |
| Repositories.MessageRepository.GetById | app/infrastructure/repositories/contact_message_repository.py:35-39 | the message stored under id, and None iff none is stored |
| Repositories.MessageRepository.GetByStatus | app/infrastructure/repositories/contact_message_repository.py:75-81 | distinct stored messages with that status, newest first: the 100 newest when there are more, all of them otherwise |
| Repositories.MessageRepository.GetPending | app/infrastructure/repositories/contact_message_repository.py:67-73 | the same as GetByStatus for status "pending" |
| Repositories.MessageRepository.ListAll | app/infrastructure/repositories/contact_message_repository.py:41-54 | with the default sort: the result is the window [skip, skip+limit) of all stored messages, distinct and ordered newest first |
| Repositories.MessageRepository.MarkAsRead | app/infrastructure/repositories/contact_message_repository.py:83-88 | true iff the message exists and is pending; then it becomes read with `read_at` now (the entity's mark_as_read); otherwise nothing changes |
| Repositories.MessageRepository.MarkAsReplied | app/infrastructure/repositories/contact_message_repository.py:90-102 | true iff the message exists and is pending or read; then the StoredReplied update is applied; otherwise nothing changes |
| UseCases.InsertKeepsUniqueNames | app/application/use_cases/skill/add_skill.py:55-68 | adding a skill under a new id whose name its profile does not use yet keeps skill names unique within every profile |
| UseCases.ReplaceKeepsUniqueNames | app/application/use_cases/skill/edit_skill.py:60-63 | replacing a skill, in the same profile, by one that keeps its name or takes a name the profile does not use, keeps names unique |
| UseCases.AddSkill | app/application/use_cases/skill/add_skill.py:55-68 | a name the profile already uses is a Duplicate("Skill", "name", name); otherwise an invalid skill fails with the entity's own error; otherwise the new skill is stored under the new id and returned. Nothing is stored on failure, and unique names and keying by id are kept |
| UseCases.EditSkill | app/application/use_cases/skill/edit_skill.py:55-73 | an unknown id is NotFound("Skill", id); a rename to a name the profile already uses is a Duplicate; a rejected `update_info` fails with its error; otherwise the updated skill replaces the stored one. Nothing is stored on failure, and unique names are kept |
| UseCases.ListSkills | app/application/use_cases/skill/list_skills.py:48-57 | the profile's skills (only the given category's when a non-empty category is given), at most 100, all when they fit, sorted by `order_index` ascending, or descending when not ascending |
| UseCases.InsertKeepsIndicesDistinct | app/application/use_cases/work_experience/add_experience.py:54-77 | adding an entry under a new id at an index its profile does not hold yet keeps every profile's indices distinct |
| UseCases.ReplaceKeepsIndicesDistinct | app/application/use_cases/work_experience/edit_experience.py:53-72 | replacing an entry by one with the same profile and index keeps every profile's indices distinct |
| UseCases.AddExperience | app/application/use_cases/work_experience/add_experience.py:54-77 | an index the profile already holds is a BusinessRuleViolation; otherwise an invalid experience fails with the entity's error; otherwise it is stored under the new id and returned. Nothing is stored on failure, and distinct indices are kept |
| UseCases.ExperienceEditKeepsValid | app/application/use_cases/work_experience/edit_experience.py:53-72 | an edit that raises nothing keeps a valid experience valid, keeps its id, profile, index and creation time, stamps `updated_at`, and installs the new responsibilities when a list is given |
| UseCases.EditExperience | app/application/use_cases/work_experience/edit_experience.py:53-72 | an unknown id is NotFound("WorkExperience", id); a rejected `update_info` or `update_responsibilities` fails with its error and stores nothing; otherwise the edited experience replaces the stored one. Distinct indices are kept |
| UseCases.AddEducation | app/application/use_cases/education/add_education.py:54-77 | an index the profile already holds is a BusinessRuleViolation; otherwise an invalid education fails with the entity's error; otherwise it is stored under the new id and returned. Nothing is stored on failure, and distinct indices are kept |
| UseCases.EditEducation | app/application/use_cases/education/edit_education.py:53-69 | an unknown id is NotFound("Education", id); a rejected `update_info` fails with its error and stores nothing; otherwise the updated education replaces the stored one. Distinct indices are kept |
| UseCases.CreateProfile | app/application/use_cases/profile/create_profile.py:50-67 | an existing profile is a Duplicate with the single-profile message; otherwise an invalid profile fails with the entity's error; otherwise the new profile is the only stored one. The store never grows past one profile |
| UseCases.ProfileUpdateKeepsValid | app/application/use_cases/profile/update_profile.py:49-67 | an update that raises nothing keeps a valid profile valid, with its id and creation time; a blank avatar URL clears the avatar |
| UseCases.UpdateProfile | app/application/use_cases/profile/update_profile.py:49-67 | no stored profile is NotFound("Profile", "single"); otherwise `update_basic_info` and then, when given, `update_avatar` run on the stored profile; a rejection fails with its error and stores nothing; success replaces it. The set of stored ids never changes |
| UseCases.GetCompleteCV | app/application/use_cases/cv/get_complete_cv.py:82-109 | fails, with NotFound("Profile", "single"), iff no profile is stored; otherwise it holds a stored profile, that profile's first 100 experiences and education by descending `order_index`, and its skills (at most 100) sorted by ascending `order_index` |
| Mappers.ReqStr | app/infrastructure/mappers/education_mapper.py:11-15 | `doc[key]` for a string: a missing key is a MissingKey failure; success iff the key holds a string, which is the result |
| Mappers.ReqNum | app/infrastructure/mappers/education_mapper.py:16-17 | `doc[key]` for a datetime or integer: a missing key is a MissingKey failure; success iff the key holds a number, which is the result |
| Mappers.OptStr | app/infrastructure/mappers/education_mapper.py:18 | `doc.get(key)` for a string: a missing or null key gives None; a present string is the result |
| Mappers.OptNum | app/infrastructure/mappers/education_mapper.py:19 | `doc.get(key)` for a datetime: a missing or null key gives None; a present number is the result |
| Mappers.StrOr | app/infrastructure/mappers/contact_message_mapper.py:15 | `doc.get(key, default)`: a missing key gives the default; otherwise the stored string |
| Mappers.ListOrEmpty | app/infrastructure/mappers/project_mapper.py:20 | `doc.get(key, [])`: a missing key gives the empty list; success iff the key is missing or holds a list |
| Mappers.Checked | app/infrastructure/mappers/education_mapper.py:10 | the entity constructor's validation: `to_domain` succeeds exactly when it does, with its value, and otherwise fails with its error |
| Mappers.MapEach | app/shared/interfaces/mapper.py:125-139 | `to_persistence_list` and `to_dto_list`: the same length, and each element mapped in place |
| Mappers.MapEachOrFail | app/shared/interfaces/mapper.py:109-123 | `to_domain_list` and `from_dto_list`: succeeds iff every element converts; then the values are the converted elements in order; otherwise the error is the first failing element's |
| Mappers.ListRoundTrip | app/shared/interfaces/mapper.py:109-139 | when every element round-trips, the whole list does |
| Mappers.ProjectRead | app/infrastructure/mappers/project_mapper.py:9-23 | `to_domain` before validation: a missing required key fails with MissingKey, a wrongly typed value with WrongType; a missing end_date, live_url and repo_url key reads as None |
| Mappers.ProjectFromDoc | app/infrastructure/mappers/project_mapper.py:9-23 | `to_domain` returns only a valid project (the entity's own validation ran), with the id stored under `_id` |
| Mappers.ProjectDocKeys | app/infrastructure/mappers/project_mapper.py:25-43 | `to_persistence` writes end_date, live_url and repo_url exactly when the field is not None |
| Mappers.ProjectDocText | app/infrastructure/mappers/project_mapper.py:25-43 | `to_persistence` writes _id, profile_id, title, description and technologies as the entity holds them |
| Mappers.ProjectDocNumbers | app/infrastructure/mappers/project_mapper.py:25-43 | `to_persistence` writes start_date, order_index, created_at and updated_at as the entity holds them |
| Mappers.ProjectDocOptional | app/infrastructure/mappers/project_mapper.py:25-43 | each of end_date, live_url and repo_url that is set is written with its value |
| Mappers.ProjectReadsBack | app/infrastructure/mappers/project_mapper.py:9-43 | reading back a written document gives back the same record, before validation |
| Mappers.ProjectRoundTrip | app/infrastructure/mappers/project_mapper.py:9-43 | for a valid project, `to_domain(to_persistence(x)) == x` |
| Mappers.ProjectTechnologiesDefault | app/infrastructure/mappers/project_mapper.py:9-23 | a document without a technologies key reads as a project with no technologies |
| Mappers.EducationRead | app/infrastructure/mappers/education_mapper.py:9-22 | `to_domain` before validation: a missing required key fails with MissingKey, a wrongly typed value with WrongType; a missing description and end_date key reads as None |
| Mappers.EducationFromDoc | app/infrastructure/mappers/education_mapper.py:9-22 | `to_domain` returns only a valid education (the entity's own validation ran), with the id stored under `_id` |
| Mappers.EducationDocKeys | app/infrastructure/mappers/education_mapper.py:24-40 | `to_persistence` writes description and end_date exactly when the field is not None |
| Mappers.EducationDocText | app/infrastructure/mappers/education_mapper.py:24-40 | `to_persistence` writes _id, profile_id, institution, degree and field as the entity holds them |
| Mappers.EducationDocNumbers | app/infrastructure/mappers/education_mapper.py:24-40 | `to_persistence` writes start_date, order_index, created_at and updated_at as the entity holds them |
| Mappers.EducationDocOptional | app/infrastructure/mappers/education_mapper.py:24-40 | each of description and end_date that is set is written with its value |
| Mappers.EducationReadsBack | app/infrastructure/mappers/education_mapper.py:9-40 | reading back a written document gives back the same record, before validation |
| Mappers.EducationRoundTrip | app/infrastructure/mappers/education_mapper.py:9-40 | for a valid education, `to_domain(to_persistence(x)) == x` |
| Mappers.EducationBlankDescriptionDropped | app/infrastructure/mappers/education_mapper.py:9-40 | a stored blank description is read as None (the entity drops it), so it is not written back |
| Mappers.CertificationRead | app/infrastructure/mappers/certification_mapper.py:9-22 | `to_domain` before validation: a missing required key fails with MissingKey, a wrongly typed value with WrongType; a missing expiry_date, credential_id and credential_url key reads as None |
| Mappers.CertificationFromDoc | app/infrastructure/mappers/certification_mapper.py:9-22 | `to_domain` returns only a valid certification (the entity's own validation ran), with the id stored under `_id` |
| Mappers.CertificationDocKeys | app/infrastructure/mappers/certification_mapper.py:24-41 | `to_persistence` writes expiry_date, credential_id and credential_url exactly when the field is not None |
| Mappers.CertificationDocText | app/infrastructure/mappers/certification_mapper.py:24-41 | `to_persistence` writes _id, profile_id, title and issuer as the entity holds them |
| Mappers.CertificationDocNumbers | app/infrastructure/mappers/certification_mapper.py:24-41 | `to_persistence` writes issue_date, order_index, created_at and updated_at as the entity holds them |
| Mappers.CertificationDocOptional | app/infrastructure/mappers/certification_mapper.py:24-41 | each of expiry_date, credential_id and credential_url that is set is written with its value |
| Mappers.CertificationReadsBack | app/infrastructure/mappers/certification_mapper.py:9-41 | reading back a written document gives back the same record, before validation |
| Mappers.CertificationRoundTrip | app/infrastructure/mappers/certification_mapper.py:9-41 | for a valid certification, `to_domain(to_persistence(x)) == x` |
| Mappers.TrainingRead | app/infrastructure/mappers/additional_training_mapper.py:9-22 | `to_domain` before validation: a missing required key fails with MissingKey, a wrongly typed value with WrongType; a missing duration, certificate_url and description key reads as None |
| Mappers.TrainingFromDoc | app/infrastructure/mappers/additional_training_mapper.py:9-22 | `to_domain` returns only a valid additional training (the entity's own validation ran), with the id stored under `_id` |
| Mappers.TrainingDocKeys | app/infrastructure/mappers/additional_training_mapper.py:24-41 | `to_persistence` writes duration, certificate_url and description exactly when the field is not None |
| Mappers.TrainingDocText | app/infrastructure/mappers/additional_training_mapper.py:24-41 | `to_persistence` writes _id, profile_id, title and provider as the entity holds them |
| Mappers.TrainingDocNumbers | app/infrastructure/mappers/additional_training_mapper.py:24-41 | `to_persistence` writes completion_date, order_index, created_at and updated_at as the entity holds them |
| Mappers.TrainingDocOptional | app/infrastructure/mappers/additional_training_mapper.py:24-41 | each of duration, certificate_url and description that is set is written with its value |
| Mappers.TrainingReadsBack | app/infrastructure/mappers/additional_training_mapper.py:9-41 | reading back a written document gives back the same record, before validation |
| Mappers.TrainingRoundTrip | app/infrastructure/mappers/additional_training_mapper.py:9-41 | for a valid additional training, `to_domain(to_persistence(x)) == x` |
| Mappers.ProfileRead | app/infrastructure/mappers/profile_mapper.py:9-19 | `to_domain` before validation: a missing required key fails with MissingKey, a wrongly typed value with WrongType; a missing bio, location and avatar_url key reads as None |
| Mappers.ProfileFromDoc | app/infrastructure/mappers/profile_mapper.py:9-19 | `to_domain` returns only a valid profile (the entity's own validation ran), with the id stored under `_id` |
| Mappers.ProfileDocKeys | app/infrastructure/mappers/profile_mapper.py:21-35 | `to_persistence` writes bio, location and avatar_url exactly when the field is not None; there is no profile_id or order_index key |
| Mappers.ProfileDocText | app/infrastructure/mappers/profile_mapper.py:21-35 | `to_persistence` writes _id, name and headline as the entity holds them |
| Mappers.ProfileDocNumbers | app/infrastructure/mappers/profile_mapper.py:21-35 | `to_persistence` writes created_at and updated_at as the entity holds them |
| Mappers.ProfileDocOptional | app/infrastructure/mappers/profile_mapper.py:21-35 | each of bio, location and avatar_url that is set is written with its value |
| Mappers.ProfileReadsBack | app/infrastructure/mappers/profile_mapper.py:9-35 | reading back a written document gives back the same record, before validation |
| Mappers.ProfileRoundTrip | app/infrastructure/mappers/profile_mapper.py:9-35 | for a valid profile, `to_domain(to_persistence(x)) == x` |
| Mappers.ContactRead | app/infrastructure/mappers/contact_information_mapper.py:9-20 | `to_domain` before validation: a missing required key fails with MissingKey, a wrongly typed value with WrongType; a missing phone, linkedin, github and website key reads as None |
| Mappers.ContactFromDoc | app/infrastructure/mappers/contact_information_mapper.py:9-20 | `to_domain` returns only a valid contact information (the entity's own validation ran), with the id stored under `_id` |
| Mappers.ContactDocKeys | app/infrastructure/mappers/contact_information_mapper.py:22-38 | `to_persistence` writes phone, linkedin, github and website exactly when the field is not None; there is no order_index key |
| Mappers.ContactDocText | app/infrastructure/mappers/contact_information_mapper.py:22-38 | `to_persistence` writes _id, profile_id and email as the entity holds them |
| Mappers.ContactDocNumbers | app/infrastructure/mappers/contact_information_mapper.py:22-38 | `to_persistence` writes created_at and updated_at as the entity holds them |
| Mappers.ContactDocOptional | app/infrastructure/mappers/contact_information_mapper.py:22-38 | each of phone, linkedin, github and website that is set is written with its value |
| Mappers.ContactReadsBack | app/infrastructure/mappers/contact_information_mapper.py:9-38 | reading back a written document gives back the same record, before validation |
| Mappers.ContactRoundTrip | app/infrastructure/mappers/contact_information_mapper.py:9-38 | for a valid contact information, `to_domain(to_persistence(x)) == x` |
| Mappers.ContactPhoneStoredAsHeld | app/infrastructure/mappers/contact_information_mapper.py:22-38 | a phone number is written exactly as the entity holds it |
| Mappers.NetworkRead | app/infrastructure/mappers/social_network_mapper.py:9-19 | `to_domain` before validation: a missing required key fails with MissingKey, a wrongly typed value with WrongType; a missing username key reads as None |
| Mappers.NetworkFromDoc | app/infrastructure/mappers/social_network_mapper.py:9-19 | `to_domain` returns only a valid social network (the entity's own validation ran), with the id stored under `_id` |
| Mappers.NetworkDocKeys | app/infrastructure/mappers/social_network_mapper.py:21-33 | `to_persistence` writes username exactly when the field is not None |
| Mappers.NetworkDocText | app/infrastructure/mappers/social_network_mapper.py:21-33 | `to_persistence` writes _id, profile_id, platform and url as the entity holds them |
| Mappers.NetworkDocNumbers | app/infrastructure/mappers/social_network_mapper.py:21-33 | `to_persistence` writes order_index, created_at and updated_at as the entity holds them |
| Mappers.NetworkDocOptional | app/infrastructure/mappers/social_network_mapper.py:21-33 | each of username that is set is written with its value |
| Mappers.NetworkReadsBack | app/infrastructure/mappers/social_network_mapper.py:9-33 | reading back a written document gives back the same record, before validation |
| Mappers.NetworkRoundTrip | app/infrastructure/mappers/social_network_mapper.py:9-33 | for a valid social network, `to_domain(to_persistence(x)) == x` |
| Mappers.ToolRead | app/infrastructure/mappers/tool_mapper.py:9-19 | `to_domain` before validation: a missing required key fails with MissingKey, a wrongly typed value with WrongType; a missing icon_url key reads as None |
| Mappers.ToolFromDoc | app/infrastructure/mappers/tool_mapper.py:9-19 | `to_domain` returns only a valid tool (the entity's own validation ran), with the id stored under `_id` |
| Mappers.ToolDocKeys | app/infrastructure/mappers/tool_mapper.py:21-33 | `to_persistence` writes icon_url exactly when the field is not None |
| Mappers.ToolDocText | app/infrastructure/mappers/tool_mapper.py:21-33 | `to_persistence` writes _id, profile_id, name and category as the entity holds them |
| Mappers.ToolDocNumbers | app/infrastructure/mappers/tool_mapper.py:21-33 | `to_persistence` writes order_index, created_at and updated_at as the entity holds them |
| Mappers.ToolDocOptional | app/infrastructure/mappers/tool_mapper.py:21-33 | each of icon_url that is set is written with its value |
| Mappers.ToolReadsBack | app/infrastructure/mappers/tool_mapper.py:9-33 | reading back a written document gives back the same record, before validation |
| Mappers.ToolRoundTrip | app/infrastructure/mappers/tool_mapper.py:9-33 | for a valid tool, `to_domain(to_persistence(x)) == x` |
| Mappers.MessageRead | app/infrastructure/mappers/contact_message_mapper.py:9-19 | `to_domain` before validation: a missing required key fails with MissingKey, a wrongly typed value with WrongType; a missing read_at and replied_at key reads as None |
| Mappers.MessageFromDoc | app/infrastructure/mappers/contact_message_mapper.py:9-19 | `to_domain` returns only a valid contact message (the entity's own validation ran), with the id stored under `_id` |
| Mappers.MessageDocKeys | app/infrastructure/mappers/contact_message_mapper.py:21-34 | `to_persistence` writes read_at and replied_at exactly when the field is not None; there is no profile_id or updated_at key |
| Mappers.MessageDocText | app/infrastructure/mappers/contact_message_mapper.py:21-34 | `to_persistence` writes _id, name, email, message and status as the entity holds them |
| Mappers.MessageDocNumbers | app/infrastructure/mappers/contact_message_mapper.py:21-34 | `to_persistence` writes created_at as the entity holds them |
| Mappers.MessageDocOptional | app/infrastructure/mappers/contact_message_mapper.py:21-34 | each of read_at and replied_at that is set is written with its value |
| Mappers.MessageReadsBack | app/infrastructure/mappers/contact_message_mapper.py:9-34 | reading back a written document gives back the same record, before validation |
| Mappers.MessageRoundTrip | app/infrastructure/mappers/contact_message_mapper.py:9-34 | for a valid contact message, `to_domain(to_persistence(x)) == x` |
| Mappers.MessageStatusDefault | app/infrastructure/mappers/contact_message_mapper.py:9-19 | a document without a status key reads as a pending message |
| Mappers.MessageUnknownStatusRejected | app/infrastructure/mappers/contact_message_mapper.py:9-19 | a stored status outside pending, read and replied makes `to_domain` fail |
| Mappers.ProjectListRoundTrip | app/shared/interfaces/mapper.py:109-139 | for a list of valid project records, `to_domain_list(to_persistence_list(xs)) == xs`, in order |
| Mappers.EducationListRoundTrip | app/shared/interfaces/mapper.py:109-139 | for a list of valid education records, `to_domain_list(to_persistence_list(xs)) == xs`, in order |
| Mappers.CertificationListRoundTrip | app/shared/interfaces/mapper.py:109-139 | for a list of valid certification records, `to_domain_list(to_persistence_list(xs)) == xs`, in order |
| Mappers.TrainingListRoundTrip | app/shared/interfaces/mapper.py:109-139 | for a list of valid additional training records, `to_domain_list(to_persistence_list(xs)) == xs`, in order |
| Mappers.ProfileListRoundTrip | app/shared/interfaces/mapper.py:109-139 | for a list of valid profile records, `to_domain_list(to_persistence_list(xs)) == xs`, in order |
| Mappers.ContactListRoundTrip | app/shared/interfaces/mapper.py:109-139 | for a list of valid contact information records, `to_domain_list(to_persistence_list(xs)) == xs`, in order |
| Mappers.NetworkListRoundTrip | app/shared/interfaces/mapper.py:109-139 | for a list of valid social network records, `to_domain_list(to_persistence_list(xs)) == xs`, in order |
| Mappers.ToolListRoundTrip | app/shared/interfaces/mapper.py:109-139 | for a list of valid tool records, `to_domain_list(to_persistence_list(xs)) == xs`, in order |
| Mappers.MessageListRoundTrip | app/shared/interfaces/mapper.py:109-139 | for a list of valid contact message records, `to_domain_list(to_persistence_list(xs)) == xs`, in order |
| Pagination.ClampedSkip | app/application/dto/base_dto.py:41-42 | the kept skip is never negative; a non-negative skip is kept, a negative one becomes 0 |
| Pagination.ClampedLimit | app/application/dto/base_dto.py:43-46 | the kept limit is always within 1..1000; a limit in range is kept, one below 1 becomes 1, one above 1000 becomes 1000 |
| Pagination.ClampIdempotent | app/application/dto/base_dto.py:40-46 | clamping twice is clamping once, the clamped request is always in range, and a request is left unchanged iff it is already in range |
| Pagination.ClampedLimitMonotone | app/application/dto/base_dto.py:43-46 | a larger requested limit never gives a smaller kept limit |
| Pagination.PaginationRequest.constructor | app/application/dto/base_dto.py:32-46 | construction then `__post_init__` leaves skip and limit clamped, and sort_by and ascending as given |
| Pagination.PaginationRequest.Default | app/application/dto/base_dto.py:35-38 | the defaults: skip 0, limit 100, no sort key, ascending |

## Notes

- `get_country_code` takes three digits as the country code whenever a number has ten or more digits. So "+34612345678" has country code "346" and formats as "+346 123 456 78". The method's docstring suggests "+34 612 345 678", but the unit tests in tests/unit/domain/value_objects/test_phone.py:184-240 pin the three-digit behaviour. The model follows the code and the tests (PhoneNumbers.SpanishNumberParts).
- The repository's `mark_as_replied` sets `read_at` to the reply time even when the message had been read earlier. The entity's `mark_as_replied` keeps the earlier `read_at`. The model keeps both behaviours; Repositories.StoredRepliedVersusEntity states exactly when they agree.
- A failing entity update is not rolled back. The fields assigned before the failing check keep their new values, and the object is left invalid. The classes model this, and each update's pure function returns that state together with the error.

## Left out

- Asynchrony and concurrency: each repository call is one sequential step. The two writes of `reorder` are not atomic in the source, which matters only under concurrent use.
- MongoDB and Motor internals (cursors, collation, indexes): a collection is a map from `_id` to the stored record. BSON values are limited to strings, numbers, string arrays and null.
- The clock and uuid4 are not modelled: `now` and `newId` are parameters. Datetimes are integer timestamps, without time zones.
- UseCases.AddSkill: requires that `newId` is not already stored, because uuid4 makes a clash practically impossible; the same holds for UseCases.AddExperience and UseCases.AddEducation.
- Repositories.OrderedRepository.Add: an existing `_id` makes `insert_one` raise a duplicate-key error; the model returns false and leaves the collection unchanged. The same holds for Repositories.ProfileRepository.Add and Repositories.MessageRepository.Add.
- Repositories.MessageRepository.ListAll: requires `limit >= 1`, because MongoDB reads limit 0 as no limit. Only the default sort (newest `created_at` first) is modelled, not a caller-chosen `sort_by`.
- Repositories.OrderedRepository.FindByProfile: a `find` without `sort` returns documents in an unspecified order. The model states which documents come back, not their order. The same holds for Repositories.FindByCategory.
- UseCases.ListSkills: promises the sorted order but not that ties keep their `find_by` order (Python's sort is stable).
- Reads do not re-run entity validation in the repository model: records are stored as records. The document encoding, and the validation `to_domain` runs on read, are in the Mappers module.
- `count`, `exists`, the skill and project repositories' `list_all`, and `find_by` with arbitrary filters are not modelled. Only the filters the use cases use are: profile, profile and category, and status.
- The experience and education repositories are not part of this model. The use cases are given the same ordered repository that models the skill and project repositories.
- `str()` applied to `_id` in every `to_domain`: ids are strings in the model, so the conversion is the identity.
- The per-entity `to_dto` and `from_dto` conversions, and the Pydantic schemas they target, are not modelled. Only the generic list wrappers `to_dto_list` and `from_dto_list` are, as Mappers.MapEach and Mappers.MapEachOrFail.
- app/domain/entities/skill.py and app/domain/value_objects/skill_level.py are not part of this model. Skill is modelled from its unit tests and from what the use cases call.
- The Email and DateRange value objects are not part of this model. The entities' own e-mail pattern and date-range checks are modelled.
- Exceptions are modelled as `Result` and `Outcome` values (DomainError, AppError, MapError). The exception class raised is kept as the error's constructor; message texts are kept only where a use case passes them on.
- Regular expressions are hand-written recognisers (URL_PATTERN, EMAIL_PATTERN, PHONE_PATTERN and the E.164 pattern), not a regex engine.
- Python string semantics: `str.strip` and `isdigit` are modelled for ASCII whitespace and digits only.
- `ErrorResponse` and the other DTOs of app/application/dto/base_dto.py are not modelled.
- The `delete_*` use cases and the contact-information repository are not modelled. They only turn a false `delete` into a NotFound error.
- HTTP routers, settings, database clients and the PDF generator placeholder are not modelled.
